# AzureSwagger in Dafny

AzureSwagger is a one-shot console program that describes an Azure storage
account as two Swagger 2.0 (OpenAPI 2.0) documents. One covers the table
service and one covers the queue service. This project models the core of
`AzureSwagger/AzureSwagger/Program.cs` and proves properties of that model.

- **Schema collection.** For every table the program samples at most the first
  100 rows. It records each property name the first time it sees it, with the
  type seen then. The result is an ordered map from table name to ordered
  property schema. See `SchemaCollector`, `OrderedMaps` and `EdmTypes`.
- **Type mapping.** Two lookup tables turn a storage property type into an
  OpenAPI `type:` and an optional `format:`. See `EdmTypes`.
- **Document building.** `BuildTableYaml` and `BuildQueueYaml` append lines to a
  `StringBuilder`. That buffer is the `LineBuffer` class of `DocumentLines`; the
  methods append to its `lines` field, and `Render` gives the text of every
  line.
  - Each `Line` carries a tag: parameter entry, property entry, definition
    entry, path entry or `$ref`. Its text is exactly what the source appends.
    The tags let the model read a document back: its top-level keys, paths,
    definitions, parameters, properties and references, and which top-level
    key each line falls under.
  - The table document is in `TableYaml`, the queue document in `QueueYaml`.
    The shared-access-signature parameter helpers are in `Parameters`. The
    pieces both documents share are in `SwaggerFragments`.
- **CORS set-up.** This is the last step of `Initialize`. Each service's rules
  are a `StorageService` object that persists between runs. Reading the
  service properties gives a `ServiceProperties` copy with a mutable rule
  list, and saving writes that list back. See `Cors`.

Every builder method is proved to append exactly the lines of a function of
its inputs. The properties are proved about those functions:

- **Table document:**
  - its top-level keys, each once;
  - its paths, in table order, all under `paths:`;
  - its definitions, in table order then the three error definitions, all
    under `definitions:`;
  - every `$ref` names a definition of the same document.
- **Collector:** property names come from the first hundred rows only, in
  first-seen order, each once, with the first-seen type.

## Model

| member | source | states |
|---|---|---|
| EdmTypes.PropertyTypeName | AzureSwagger/AzureSwagger/Program.cs:27-37 | every property type has a type name. Binary, DateTime, Guid and String map to `string`; Int32 and Int64 to `integer`; Boolean to `boolean`; Double to `number` |
| EdmTypes.PropertyFormat | AzureSwagger/AzureSwagger/Program.cs:39-46 | a format exists exactly for Binary, DateTime, Double, Int32 and Int64, and it is `binary`, `date-time`, `double`, `int32` and `int64` respectively, each value for exactly one type; Boolean, Guid and String have none |
| EdmTypes.FormatIdentifiesType | AzureSwagger/AzureSwagger/Program.cs:39-46 | two types with the same format are the same type |
| EdmTypes.RenderedTypeLosesOnlyGuid | AzureSwagger/AzureSwagger/Program.cs:27-46 | two distinct types render to the same (type, format) pair exactly when they are Guid and String |
| OrderedMaps.Lookup | AzureSwagger/AzureSwagger/Program.cs:549 | `ContainsKey` fails exactly when the name is absent; a found value is stored under that name |
| SchemaCollector.Sample | AzureSwagger/AzureSwagger/Program.cs:545 | `Take(100)` gives the first min(100, n) rows, in order |
| SchemaCollector.SampledSchemaGrows | AzureSwagger/AzureSwagger/Program.cs:547-553 | at every point of the loop over the sampled rows, the schema built so far is a prefix of the final schema: an entry, once added, is never overwritten, removed or moved |
| SchemaCollector.SampledSchemaKeys | AzureSwagger/AzureSwagger/Program.cs:545-553 | the names are distinct, and a name is in the schema exactly when some property of the first 100 rows has it |
| SchemaCollector.SampledSchemaFirstSeen | AzureSwagger/AzureSwagger/Program.cs:547-553 | every entry is the first visit of its name, row by row; entries are in the order their names were first seen |
| SchemaCollector.SampledSchemaLookup | AzureSwagger/AzureSwagger/Program.cs:549-553 | a sampled name's type is the type of its first occurrence; the first type wins over later ones |
| SchemaCollector.SampleIgnoresLaterRows | AzureSwagger/AzureSwagger/Program.cs:545 | rows after the hundredth never change the schema |
| SchemaCollector.DiscoveryOrderExample | AzureSwagger/AzureSwagger/Program.cs:547-553 | rows {A, B} then {C, A} give [A, B, C]; A keeps its first type |
| SchemaCollector.InferSchema | AzureSwagger/AzureSwagger/Program.cs:545-553 | the nested loops over the sampled rows and their properties compute the sampled schema |
| SchemaCollector.CollectSchemas | AzureSwagger/AzureSwagger/Program.cs:541-554 | a repeated table name is reported (`Dictionary.Add` throws) exactly when the names are not distinct. Otherwise table i of the registry is table i with its sampled schema |
| DocumentLines.Render | AzureSwagger/AzureSwagger/Program.cs:407 | the text has one line per appended line, each with the text that was appended |
| DocumentLines.LineBuffer.AppendLine | AzureSwagger/AzureSwagger/Program.cs:206 | `AppendLine` adds exactly one line at the end |
| Parameters.AddCommonSasParameters | AzureSwagger/AzureSwagger/Program.cs:410-468 | appends the tag, then the opening of the parameter list, then the eight SAS parameter entries |
| Parameters.ParamsLinesShape | AzureSwagger/AzureSwagger/Program.cs:417-467 | a run of parameter entries declares exactly those parameters, in order, with no other entry and no `$ref` |
| Parameters.ParameterBlockShape | AzureSwagger/AzureSwagger/Program.cs:410-468 | a tagged parameter block declares only its parameters: no property, definition, path, top-level key or `$ref` |
| Parameters.SasParameterOrder | AzureSwagger/AzureSwagger/Program.cs:410-468 | the parameters are sv, st, se, si, sip, spr, sp, sig in that order; `sp` defaults to the quoted permissions passed in |
| Parameters.AddTableParameters | AzureSwagger/AzureSwagger/Program.cs:482-516 | appends the SAS block with `raud`, then tn, spk, epk, srk and erk |
| Parameters.TableParameterOrder | AzureSwagger/AzureSwagger/Program.cs:482-516 | a table operation declares sv … sig, then tn, spk, epk, srk, erk; `sp` defaults to `'raud'` and `tn` to the table name |
| Parameters.AddQueueParameters | AzureSwagger/AzureSwagger/Program.cs:470-480 | appends the SAS block with `raup`, then timeout |
| Parameters.QueueParameterOrder | AzureSwagger/AzureSwagger/Program.cs:470-480 | a queue operation declares sv … sig, then timeout; `sp` defaults to `'raup'` |
| SwaggerFragments.PreambleKeys | AzureSwagger/AzureSwagger/Program.cs:206-214 | the preamble's top-level keys are swagger, info, host and schemes; it holds no entry of any other kind and no `$ref` |
| SwaggerFragments.SectionLayout | AzureSwagger/AzureSwagger/Program.cs:218-352 | a head ending in `paths:`, then path lines, then `definitions:` and definition lines, puts every path under `paths:` and every definition under `definitions:` |
| SwaggerFragments.ResponsesShape | AzureSwagger/AzureSwagger/Program.cs:243-247 | a `responses:` block stays inside its operation and refers exactly to the schemas its responses name |
| SwaggerFragments.PropertyLinesDistinguishTypes | AzureSwagger/AzureSwagger/Program.cs:369-372 | the lines of two differently typed properties of the same name differ, except for Guid against String |
| TableYaml.AppendProperty | AzureSwagger/AzureSwagger/Program.cs:369-372 | one property entry: its type, then its format only when the type has one |
| TableYaml.AppendEntityObject | AzureSwagger/AzureSwagger/Program.cs:355-373 | the entity definition: the object head, then the three system properties, then one entry per schema property in schema order |
| TableYaml.AppendAllPaths | AzureSwagger/AzureSwagger/Program.cs:220-350 | the first loop appends the two paths of each table, in registry order |
| TableYaml.AppendAllDefinitions | AzureSwagger/AzureSwagger/Program.cs:353-386 | the second loop appends each table's entity, array and response definitions, in registry order |
| TableYaml.BuildTableYaml | AzureSwagger/AzureSwagger/Program.cs:198-408 | the returned text is the rendered table document for the account name, host and registry |
| TableYamlProperties.SearchOperationShape | AzureSwagger/AzureSwagger/Program.cs:223-248 | the table query stays inside its path and refers only to `<table>response` |
| TableYamlProperties.InsertOperationShape | AzureSwagger/AzureSwagger/Program.cs:249-271 | insert refers to the entity and to `errorresponse` only |
| TableYamlProperties.GetOperationShape | AzureSwagger/AzureSwagger/Program.cs:274-296 | the point lookup refers to the entity and to `errorresponse` only |
| TableYamlProperties.ReplaceOperationShape | AzureSwagger/AzureSwagger/Program.cs:297-319 | replace refers to the entity only; its 204 has no schema |
| TableYamlProperties.DeleteOperationShape | AzureSwagger/AzureSwagger/Program.cs:320-350 | delete refers to `errorresponse` only |
| TableYamlProperties.TablePathsShape | AzureSwagger/AzureSwagger/Program.cs:222-350 | a table's paths are the table and one entity keyed by PartitionKey and RowKey, in that order; they refer to the entity, `<table>response` and `errorresponse` |
| TableYamlProperties.AllPathsShape | AzureSwagger/AzureSwagger/Program.cs:220-350 | every table adds its two paths, in registry order. The paths refer to the tables, their responses, and `errorresponse` when there is a table |
| TableYamlProperties.EntityObjectBlock | AzureSwagger/AzureSwagger/Program.cs:355-373 | the entity definition defines the table and declares PartitionKey, RowKey, Timestamp, then the schema's names in order |
| TableYamlProperties.SampledEntityProperties | AzureSwagger/AzureSwagger/Program.cs:355-373 | for a sampled table, the properties after the three system ones are distinct: exactly the names seen in the first hundred rows |
| TableYamlProperties.AllDefinitionsBlock | AzureSwagger/AzureSwagger/Program.cs:353-386 | each table defines `<t>`, `<t>s` and `<t>response`, in registry order; the array refers to the entity and the response to the array |
| TableYamlProperties.ErrorDefinitionsBlock | AzureSwagger/AzureSwagger/Program.cs:387-405 | the document closes with `errorresponse`, `error` and `errormessage`, which refer to `error` and `errormessage` |
| TableYamlProperties.TableDocumentKeys | AzureSwagger/AzureSwagger/Program.cs:206-352 | the top-level keys are swagger, info, host, schemes, produces, paths and definitions, each once |
| TableYamlProperties.TableDocumentPaths | AzureSwagger/AzureSwagger/Program.cs:218-350 | the document's paths are the tables' paths in registry order, and each lies under `paths:` |
| TableYamlProperties.TableDocumentDefinitions | AzureSwagger/AzureSwagger/Program.cs:352-405 | the definitions are each table's three, then the three error definitions, each under `definitions:` |
| TableYamlProperties.TableReferencesResolve | AzureSwagger/AzureSwagger/Program.cs:198-408 | every `$ref` names a definition of the document. Every definition is referred to exactly when there is at least one table |
| TableYamlProperties.DefinitionNamesRepeat | AzureSwagger/AzureSwagger/Program.cs:352-403 | the definition names are not always distinct. If table `j` is named like table `i` with an extra `s`, then `i`'s array and `j`'s entity have the same name. A table named `error` has the same name as the shared error definition |
| TableYamlProperties.DefinitionsReadFromText | AzureSwagger/AzureSwagger/Program.cs:352-403 | when no table name starts with a space, a reader who goes by indentation alone finds in the `definitions:` section the tagged definition names, in order: no other line there is indented like a definition head |
| QueueYaml.AppendQueuePath | AzureSwagger/AzureSwagger/Program.cs:105-171 | one queue's path, with its `get` and `post` operations |
| QueueYaml.BuildQueueYaml | AzureSwagger/AzureSwagger/Program.cs:78-196 | the returned text is the rendered queue document, with the definitions repeated after each queue's path |
| QueueYaml.BuildQueueYamlSingleDefinitions | AzureSwagger/AzureSwagger/Program.cs:103-191 | the same builder with the definitions appended once, after the loop, renders the single-definitions document |
| QueueYamlProperties.QueuePathShape | AzureSwagger/AzureSwagger/Program.cs:105-171 | a queue adds the one path `<queue>/messages`, and only its 400 response refers to `ErrorMessage` |
| QueueYamlProperties.AllQueuePathsShape | AzureSwagger/AzureSwagger/Program.cs:103-193 | the queues' paths are in listing order, and they refer to `ErrorMessage` once there is a queue |
| QueueYamlProperties.QueueDefinitionsBlock | AzureSwagger/AzureSwagger/Program.cs:174-191 | the definitions are `QueueMessage` {MessageText} and `ErrorMessage` {Code, Message, LineNumber, LinePosition, Reason} |
| QueueYamlProperties.QueueDefinitionsReadFromText | AzureSwagger/AzureSwagger/Program.cs:174-191 | a reader who goes by indentation alone finds the definitions `QueueMessage` and `ErrorMessage` in the rendered section, as the tags say |
| QueueYamlProperties.QueueHeaderShape | AzureSwagger/AzureSwagger/Program.cs:87-100 | the queue header's keys are swagger, info, host, schemes, produces, consumes and paths |
| QueueYamlProperties.QueueDocumentKeys | AzureSwagger/AzureSwagger/Program.cs:87-193 | the builder's document repeats the key `definitions:` once per queue after the header's keys |
| QueueYamlProperties.SecondQueueUnderDefinitions | AzureSwagger/AzureSwagger/Program.cs:103-193 | with two queues `a` and `b`, the document line at `SecondPathIndex` (just after the header and `a`'s whole block) is `b`'s path line, it opens a path entry, and the section it falls under is `definitions:` rather than `paths:` |
| QueueYamlProperties.QueueDocumentMatchesSingleDefinitions | AzureSwagger/AzureSwagger/Program.cs:103-193 | the builder's document equals the single-definitions document exactly when there is one queue |
| QueueYamlProperties.SingleDefinitionsKeys | AzureSwagger/AzureSwagger/Program.cs:87-191 | with one definitions section, each top-level key appears once |
| QueueYamlProperties.SingleDefinitionsPaths | AzureSwagger/AzureSwagger/Program.cs:103-171 | with one definitions section, every queue's path is listed in order under `paths:` |
| QueueYamlProperties.SingleDefinitionsDefinitions | AzureSwagger/AzureSwagger/Program.cs:174-191 | with one definitions section, `QueueMessage` and `ErrorMessage` are defined once each, under `definitions:` |
| QueueYamlProperties.SingleDefinitionsReferencesResolve | AzureSwagger/AzureSwagger/Program.cs:163-191 | with one definitions section, every `$ref` names a definition of the document |
| Cors.Split | AzureSwagger/AzureSwagger/Program.cs:569 | splitting gives at least one piece, and no piece holds a comma |
| Cors.SplitJoin | AzureSwagger/AzureSwagger/Program.cs:569 | joining the pieces with commas gives the setting back |
| Cors.JoinSplit | AzureSwagger/AzureSwagger/Program.cs:569 | comma-free pieces come back unchanged when their join is split |
| Cors.NewCorsRule | AzureSwagger/AzureSwagger/Program.cs:563-571 | the new rule allows the split origins and GET, POST, DELETE and PUT, allows and exposes every header (`*`), with a 60-second maximum age |
| Cors.ServiceProperties.AddRule | AzureSwagger/AzureSwagger/Program.cs:563 | `CorsRules.Add` appends one rule |
| Cors.EnsureCorsRule | AzureSwagger/AzureSwagger/Program.cs:560-573 | the properties are saved exactly when no rule lists the whole setting. The service then holds its old rules plus the new one |
| Cors.ConfigureCors | AzureSwagger/AzureSwagger/Program.cs:556-589 | an absent or empty setting changes no service. Otherwise the table service and then the queue service each get the step, and each service's properties are saved exactly when none of its rules lists the whole setting |
| Cors.WithCorsRuleAppends | AzureSwagger/AzureSwagger/Program.cs:561-573 | the step keeps every existing rule and adds at most one; it adds one exactly when no rule lists the setting |
| Cors.SingleOriginStep | AzureSwagger/AzureSwagger/Program.cs:561-573 | with a single origin, the origin is allowed afterwards, and a second run changes nothing |
| Cors.SeveralOriginsRepeatRule | AzureSwagger/AzureSwagger/Program.cs:561-573 | with a comma in the setting, two runs add the same rule twice |
| Cors.TwoRunsTwoRules | AzureSwagger/AzureSwagger/Program.cs:561-573 | two runs with `a,b` leave two rules |
| Cors.EnsureCoveringCorsRule | AzureSwagger/AzureSwagger/Program.cs:560-573 | the corrected step saves exactly when no rule allows every origin of the setting |
| Cors.CoveringStepAllows | AzureSwagger/AzureSwagger/Program.cs:561-573 | after the corrected step, one rule allows every origin of the setting |
| Cors.CoveringStepIdempotent | AzureSwagger/AzureSwagger/Program.cs:561-573 | running the corrected step twice is the same as running it once |
| Cors.CoveringStepAgreesOnSingleOrigin | AzureSwagger/AzureSwagger/Program.cs:561-573 | for a single origin, the corrected step is the program's step |

## Left out

- TableYamlProperties.TableReferencesResolve: the references resolve as sets
  of names. The model does not promise that definition names are distinct,
  because the source does not make them so. `DefinitionNamesRepeat` shows
  the two ways names repeat: table names such as `Order` and `Orders`, and a
  table named `error`.
- The read-back functions `Entries` and `Refs` go by the tag of each line.
  Only the definition heads are shown to agree with a text-level reading
  (`DefinitionsReadFromText`, `QueueDefinitionsReadFromText`). Path heads,
  parameters, properties and `$ref` lines are read by tag only. Text alone
  cannot tell them apart: an operation line such as `  get:` is indented
  like a definition head, and only its section says which one it is.
- Reading configuration, building the clients and the console are not
  modelled: `Main`, and `Initialize` up to listing the tables (518-539).
  Publishing the documents (`SaveYaml`) is not modelled either. All of these
  are I/O.
- The storage calls are parameters of the model:
  - the tables and their first rows (`ListTables`, `ExecuteQuery`);
  - the queue names (`ListQueues`);
  - the host name (`StorageUri.PrimaryUri.Host`);
  - the service properties (`GetServiceProperties` / `SetServiceProperties`).
- A row's property values are not modelled; only the property names and their
  storage types are. PartitionKey, RowKey and Timestamp never appear among a
  row's properties, because the storage library keeps them apart.
- `AppendLine`'s line terminator is not modelled: the text is a sequence of
  lines.
- A `Dictionary` is a sequence of entries in insertion order. That is the
  order in which the program enumerates one that only ever has entries added.
- A repeated table name makes `Dictionary.Add` throw. The model returns it as
  `DuplicateTable` instead of raising an exception.
- Literal runs of `AppendLine` calls are appended through `AppendParams` and
  `AppendLines`. These are loops over the same lines, in the same order.
- Runs of parameters are written as `Param` values.
- The inner loop reads `TableDescriptions[table.Key]`. The model iterates over
  the entry's own schema, which is the same value.
- CORS:
  - the service's limit on the number of rules is not modelled;
  - failures of `SetServiceProperties` are not modelled;
  - `allowedMethods` is a set instead of a bit-flag enumeration.
- Running the program twice is expected to leave one CORS rule per service.
  The code does so only when the setting is a single origin: see
  `Cors.SingleOriginStep` and the finding below.

## Findings

| source | as written | input that shows it | evidently intended | confidence | as-written member | corrected member |
|---|---|---|---|---|---|---|
| AzureSwagger/AzureSwagger/Program.cs:174-191 | `definitions:` and both queue definitions are appended inside the `foreach` over the queues | two queues `a` and `b`: the key `definitions:` appears twice, and `b/messages` falls under `definitions:` rather than `paths:` | one `definitions:` section, after every path | not executed | QueueYamlProperties.SecondQueueUnderDefinitions | QueueYamlProperties.SingleDefinitionsPaths |
| AzureSwagger/AzureSwagger/Program.cs:561 | the guard asks whether some rule's origin list contains the whole setting, but the added rule holds the setting split at commas | `AllowedOrigins` = `a,b`, run twice: two identical rules | a run adds a rule only when no rule allows the origins yet | not executed | Cors.TwoRunsTwoRules | Cors.CoveringStepIdempotent |
