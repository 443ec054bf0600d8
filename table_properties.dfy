/**
 * What the table document promises: its top-level keys, the paths of every
 * table, the definitions of every table in order, and that every `$ref`
 * names a definition of the same document.
 */
module TableYamlProperties {
  import opened Sequences
  import opened Wrappers
  import opened DocumentLines
  import opened EdmTypes
  import opened OrderedMaps
  import opened SchemaCollector
  import opened Parameters
  import opened SwaggerFragments
  import opened TableYaml

  // ---------------------------------------------------------------------
  // Operations

  lemma TableParameterLinesNested(tableName: string)
    ensures forall l | l in TableParameterLines(tableName) :: Nested(l)
    ensures Refs(TableParameterLines(tableName)) == {}
  {
    TableParameterOrder(tableName);
    ParameterBlockNested(tableName, SasParameters(TablePermissions) + TableNavigationParameters(tableName));
  }

  /** The lines of an operation, less its parameter block and its responses. */
  lemma OperationShape(head: seq<Line>, tableName: string, extra: seq<Line>, rs: seq<Response>)
    requires forall l | l in head :: Nested(l)
    requires Refs(head) == {}
    requires forall l | l in extra :: Nested(l)
    ensures forall l | l in head + TableParameterLines(tableName) + extra + Responses(rs) :: Nested(l)
    ensures Refs(head + TableParameterLines(tableName) + extra + Responses(rs)) == Refs(extra) + Schemas(rs)
  {
    TableParameterLinesNested(tableName);
    ResponsesShape(rs);
    RefsAppend(head, TableParameterLines(tableName));
    RefsAppend(head + TableParameterLines(tableName), extra);
    RefsAppend(head + TableParameterLines(tableName) + extra, Responses(rs));
  }

  lemma SearchOperationShape(tableName: string)
    ensures forall l | l in SearchOperation(tableName) :: Nested(l)
    ensures Refs(SearchOperation(tableName)) == {ResponseName(tableName)}
  {
    var head := OperationHead("get", "Search the " + tableName + " table.");
    OperationHeadNested("get", "Search the " + tableName + " table.");
    ParamsNested(QueryOptions);
    ParamsLinesShape(QueryOptions);
    OperationShape(head, tableName, ParamsLines(QueryOptions), SearchResponses(tableName));
    assert SearchResponses(tableName)[0].schema == Some(ResponseName(tableName));
  }

  lemma InsertOperationShape(tableName: string)
    ensures forall l | l in InsertOperation(tableName) :: Nested(l)
    ensures Refs(InsertOperation(tableName)) == {tableName, ErrorResponse}
  {
    var head := OperationHead("post", "Insert an entity into the " + tableName + " table.");
    OperationHeadNested("post", "Insert an entity into the " + tableName + " table.");
    BodyReferenceShape(tableName);
    OperationShape(head, tableName, BodyReference(tableName), InsertResponses(tableName));
    InsertSchemas(tableName);
  }

  lemma GetOperationShape(tableName: string)
    ensures forall l | l in GetOperation(tableName) :: Nested(l)
    ensures Refs(GetOperation(tableName)) == {tableName, ErrorResponse}
  {
    var head := OperationHead("get", "Get an entity in the " + tableName + " table.");
    OperationHeadNested("get", "Get an entity in the " + tableName + " table.");
    ParamsNested(EntityKeys);
    ParamsLinesShape(EntityKeys);
    OperationShape(head, tableName, ParamsLines(EntityKeys), GetResponses(tableName));
    GetSchemas(tableName);
  }

  lemma ReplaceOperationShape(tableName: string)
    ensures forall l | l in ReplaceOperation(tableName) :: Nested(l)
    ensures Refs(ReplaceOperation(tableName)) == {tableName}
  {
    var head := OperationHead("put", "Replace an entity in the " + tableName + " table.");
    OperationHeadNested("put", "Replace an entity in the " + tableName + " table.");
    ParamsNested(EntityKeys);
    ParamsLinesShape(EntityKeys);
    BodyReferenceShape(tableName);
    RefsAppend(ParamsLines(EntityKeys), BodyReference(tableName));
    OperationShape(head, tableName, ParamsLines(EntityKeys) + BodyReference(tableName), ReplaceResponses);
    assert Schemas(ReplaceResponses) == {};
  }

  lemma DeleteOperationShape(tableName: string)
    ensures forall l | l in DeleteOperation(tableName) :: Nested(l)
    ensures Refs(DeleteOperation(tableName)) == {ErrorResponse}
  {
    var head := OperationHead("delete", "Delete an entity from the " + tableName + " table.");
    OperationHeadNested("delete", "Delete an entity from the " + tableName + " table.");
    ParamsNested(EntityKeys + [IfMatch]);
    ParamsLinesShape(EntityKeys + [IfMatch]);
    OperationShape(head, tableName, ParamsLines(EntityKeys + [IfMatch]), DeleteResponses);
    DeleteSchemas();
  }

  lemma InsertSchemas(tableName: string)
    ensures Schemas(InsertResponses(tableName)) == {tableName, ErrorResponse}
  {
    var rs := InsertResponses(tableName);
    SchemasSnoc([rs[0]], rs[1]);
    SchemasSnoc([rs[0], rs[1]], rs[2]);
    SchemasSnoc([], rs[0]);
    assert [] + [rs[0]] == [rs[0]];
    assert [rs[0]] + [rs[1]] == [rs[0], rs[1]];
    assert [rs[0], rs[1]] + [rs[2]] == rs;
  }

  lemma GetSchemas(tableName: string)
    ensures Schemas(GetResponses(tableName)) == {tableName, ErrorResponse}
  {
    var rs := GetResponses(tableName);
    SchemasSnoc([rs[0]], rs[1]);
    SchemasSnoc([], rs[0]);
    assert [] + [rs[0]] == [rs[0]];
    assert [rs[0]] + [rs[1]] == rs;
  }

  lemma DeleteSchemas()
    ensures Schemas(DeleteResponses) == {ErrorResponse}
  {
    var rs := DeleteResponses;
    SchemasSnoc([rs[0]], rs[1]);
    SchemasSnoc([rs[0], rs[1]], rs[2]);
    SchemasSnoc([], rs[0]);
    assert [] + [rs[0]] == [rs[0]];
    assert [rs[0]] + [rs[1]] == [rs[0], rs[1]];
    assert [rs[0], rs[1]] + [rs[2]] == rs;
  }

  // ---------------------------------------------------------------------
  // Paths

  /** The paths of the tables, in order: each table, then one entity of it. */
  function PathNames(tables: Registry): (ns: seq<string>)
    ensures |ns| == 2 * |tables|
  {
    if tables == [] then []
    else
      var t := tables[|tables| - 1].0;
      PathNames(tables[..|tables| - 1]) + [t, EntityPath(t)]
  }

  function TableNames(tables: Registry): set<string>
  {
    if tables == [] then {} else TableNames(tables[..|tables| - 1]) + {tables[|tables| - 1].0}
  }

  function ArrayNames(tables: Registry): set<string>
  {
    if tables == [] then {} else ArrayNames(tables[..|tables| - 1]) + {ArrayName(tables[|tables| - 1].0)}
  }

  function ResponseNames(tables: Registry): set<string>
  {
    if tables == [] then {} else ResponseNames(tables[..|tables| - 1]) + {ResponseName(tables[|tables| - 1].0)}
  }

  lemma CollectionPathShape(tableName: string)
    ensures forall l | l in CollectionPath(tableName) :: InPaths(l)
    ensures Entries(CollectionPath(tableName), PathEntry) == [tableName]
    ensures Refs(CollectionPath(tableName)) == {tableName, ResponseName(tableName), ErrorResponse}
  {
    var ops := SearchOperation(tableName) + InsertOperation(tableName);
    assert CollectionPath(tableName) == [PathHead(tableName)] + ops;
    assert (forall l | l in ops :: Nested(l)) && Refs(ops) == {tableName, ResponseName(tableName), ErrorResponse} by {
      SearchOperationShape(tableName);
      InsertOperationShape(tableName);
      RefsAppend(SearchOperation(tableName), InsertOperation(tableName));
    }
    PathShape(tableName, ops);
  }

  lemma EntityPathShape(tableName: string)
    ensures forall l | l in EntityPathLines(tableName) :: InPaths(l)
    ensures Entries(EntityPathLines(tableName), PathEntry) == [EntityPath(tableName)]
    ensures Refs(EntityPathLines(tableName)) == {tableName, ErrorResponse}
  {
    var get, replace, delete := GetOperation(tableName), ReplaceOperation(tableName), DeleteOperation(tableName);
    AssocFour([PathHead(EntityPath(tableName))], get, replace, delete);
    GetOperationShape(tableName);
    ReplaceOperationShape(tableName);
    DeleteOperationShape(tableName);
    NestedJoin(get, replace);
    NestedJoin(get + replace, delete);
    PairCovers(tableName, ErrorResponse);
    PathShape(EntityPath(tableName), get + replace + delete);
  }

  /**
   * The two paths of a table are the table and one of its entities; they
   * refer to the entity, the query response and the error response.
   */
  lemma TablePathsShape(tableName: string)
    ensures forall l | l in TablePaths(tableName) :: InPaths(l)
    ensures Entries(TablePaths(tableName), PathEntry) == [tableName, EntityPath(tableName)]
    ensures Refs(TablePaths(tableName)) == {tableName, ResponseName(tableName), ErrorResponse}
  {
    CollectionPathShape(tableName);
    EntityPathShape(tableName);
    PairOf(tableName, EntityPath(tableName));
    UnionAbsorbs({tableName, ResponseName(tableName), ErrorResponse}, {tableName, ErrorResponse});
    PathsJoin(CollectionPath(tableName), EntityPathLines(tableName),
              [tableName], [EntityPath(tableName)],
              {tableName, ResponseName(tableName), ErrorResponse}, {tableName, ErrorResponse});
  }

  /** Every table contributes its two paths, in table order, and nothing else. */
  lemma AllPathsShape(tables: Registry)
    ensures forall l | l in AllPaths(tables) :: InPaths(l)
    ensures Entries(AllPaths(tables), PathEntry) == PathNames(tables)
    ensures Refs(AllPaths(tables))
         == TableNames(tables) + ResponseNames(tables) + (if tables == [] then {} else {ErrorResponse})
  {
    AllPathsInPaths(tables);
    AllPathsEntries(tables);
    AllPathsRefs(tables);
  }

  lemma AllPathsSnoc(tables: Registry)
    requires tables != []
    ensures AllPaths(tables) == AllPaths(tables[..|tables| - 1]) + TablePaths(tables[|tables| - 1].0)
  {
  }

  lemma {:induction false} AllPathsInPaths(tables: Registry)
    ensures forall l | l in AllPaths(tables) :: InPaths(l)
  {
    if tables != [] {
      AllPathsSnoc(tables);
      AllPathsInPaths(tables[..|tables| - 1]);
      TablePathsShape(tables[|tables| - 1].0);
    }
  }

  lemma {:induction false} AllPathsEntries(tables: Registry)
    ensures Entries(AllPaths(tables), PathEntry) == PathNames(tables)
  {
    if tables != [] {
      var init, t := tables[..|tables| - 1], tables[|tables| - 1].0;
      AllPathsSnoc(tables);
      AllPathsEntries(init);
      TablePathsShape(t);
      EntriesAppend(AllPaths(init), TablePaths(t), PathEntry);
      NamesSnoc(tables);
    }
  }

  lemma AllPathsRefs(tables: Registry)
    ensures Refs(AllPaths(tables))
         == TableNames(tables) + ResponseNames(tables) + (if tables == [] then {} else {ErrorResponse})
  {
    if tables != [] {
      SomePathsRefs(tables);
    }
  }

  lemma {:induction false} SomePathsRefs(tables: Registry)
    requires tables != []
    ensures Refs(AllPaths(tables)) == TableNames(tables) + ResponseNames(tables) + {ErrorResponse}
  {
    var init, t := tables[..|tables| - 1], tables[|tables| - 1].0;
    AllPathsSnoc(tables);
    TablePathsRefs(t);
    RefsAppend(AllPaths(init), TablePaths(t));
    if init == [] {
      assert Refs(AllPaths(init)) == {};
      FirstTableRefs(Refs(AllPaths(tables)), Refs(AllPaths(init)), Refs(TablePaths(t)), TableNames(init), ResponseNames(init),
                     t, ResponseName(t), ErrorResponse, TableNames(tables), ResponseNames(tables));
    } else {
      SomePathsRefs(init);
      UnionStep(Refs(AllPaths(tables)), Refs(AllPaths(init)), Refs(TablePaths(t)), TableNames(init), ResponseNames(init),
                t, ResponseName(t), ErrorResponse, TableNames(tables), ResponseNames(tables));
    }
  }

  /** The name functions of a registry, one table at a time. */
  lemma NamesSnoc(tables: Registry)
    requires tables != []
    ensures var init, t := tables[..|tables| - 1], tables[|tables| - 1].0;
      && PathNames(tables) == PathNames(init) + [t, EntityPath(t)]
      && TableNames(tables) == TableNames(init) + {t}
      && ArrayNames(tables) == ArrayNames(init) + {ArrayName(t)}
      && ResponseNames(tables) == ResponseNames(init) + {ResponseName(t)}
  {
  }

  lemma TablePathsRefs(tableName: string)
    ensures Refs(TablePaths(tableName)) == {tableName, ResponseName(tableName), ErrorResponse}
  {
    TablePathsShape(tableName);
  }

  /** The references of one more table's paths, added to those before it. */
  lemma UnionStep(refs: set<string>, before: set<string>, added: set<string>,
                  names: set<string>, responses: set<string>, t: string, r: string, e: string,
                  names': set<string>, responses': set<string>)
    requires refs == before + added
    requires before == names + responses + {e} && added == {t, r, e}
    requires names' == names + {t} && responses' == responses + {r}
    ensures refs == names' + responses' + {e}
  {
  }

  /** The references of the first table's paths. */
  lemma FirstTableRefs(refs: set<string>, before: set<string>, added: set<string>,
                       names: set<string>, responses: set<string>, t: string, r: string, e: string,
                       names': set<string>, responses': set<string>)
    requires refs == before + added
    requires before == {} && names == {} && responses == {} && added == {t, r, e}
    requires names' == names + {t} && responses' == responses + {r}
    ensures refs == names' + responses' + {e}
  {
  }

  // ---------------------------------------------------------------------
  // Definitions

  /** The names of the properties every entity has. */
  const SystemPropertyNames := ["PartitionKey", "RowKey", "Timestamp"]

  lemma SystemPropertiesBlock()
    ensures DefinitionBlock(SystemProperties(), [], SystemPropertyNames, {})
  {
    PropertyBlock("PartitionKey", EdmType.String);
    PropertyBlock("RowKey", EdmType.String);
    PropertyBlock("Timestamp", DateTime);
    DefinitionBlockAppend3(PropertyLines("PartitionKey", EdmType.String), [], ["PartitionKey"], {},
                           PropertyLines("RowKey", EdmType.String), [], ["RowKey"], {},
                           PropertyLines("Timestamp", DateTime), [], ["Timestamp"], {});
    TripleOf("PartitionKey", "RowKey", "Timestamp");
  }

  /** The schema's properties are declared in the schema's order, one entry each. */
  lemma {:induction false} SchemaPropertiesBlock(schema: Schema)
    ensures DefinitionBlock(SchemaProperties(schema), [], Keys(schema), {})
  {
    if schema != [] {
      var init, p := schema[..|schema| - 1], schema[|schema| - 1];
      SchemaPropertiesBlock(init);
      PropertyBlock(p.0, p.1);
      DefinitionBlockAppend(SchemaProperties(init), [], Keys(init), {}, PropertyLines(p.0, p.1), [], [p.0], {});
      KeysSnoc(schema);
    }
  }

  lemma ArrayDefinitionBlock(tableName: string)
    ensures DefinitionBlock(ArrayDefinition(tableName), [ArrayName(tableName)], [], {tableName})
  {
    ArrayDefinitionIndented(tableName);
    ArrayDefinitionEntries(tableName);
    ArrayDefinitionRefs(tableName);
  }

  lemma ArrayDefinitionEntries(tableName: string)
    ensures Entries(ArrayDefinition(tableName), DefinitionEntry) == [ArrayName(tableName)]
    ensures Entries(ArrayDefinition(tableName), PropertyEntry) == []
  {
    var ls := ArrayDefinition(tableName);
    var rest := ls[1..];
    assert ls == [ls[0]] + rest;
    ArrayDefinitionIndented(tableName);
    NoEntriesIn(ls, PropertyEntry);
    NoEntriesIn(rest, DefinitionEntry);
    EntriesAppend([ls[0]], rest, DefinitionEntry);
    OneEntry(ls[0], DefinitionEntry);
    AppendEmpty([ArrayName(tableName)]);
  }

  lemma ArrayDefinitionRefs(tableName: string)
    ensures Refs(ArrayDefinition(tableName)) == {tableName}
  {
    var ls := ArrayDefinition(tableName);
    var front, r := ls[..3], RefTo("      ", tableName);
    assert ls == front + [r];
    NoRefs(front);
    RefsAppend(front, [r]);
    OneRef("      ", tableName);
    AppendEmpty([r]);
  }

  lemma ArrayDefinitionIndented(tableName: string)
    ensures forall l | l in ArrayDefinition(tableName) :: InDefinitions(l) && !l.PropHead?
  {
    forall l | l in ArrayDefinition(tableName) ensures InDefinitions(l) && !l.PropHead? {
      assert LineText(l)[0] == ' ';
    }
  }

  lemma ResponseDefinitionBlock(tableName: string)
    ensures DefinitionBlock(ResponseDefinition(tableName), [ResponseName(tableName)], ["value"], {ArrayName(tableName)})
  {
    ObjectHeadBlock(ResponseName(tableName));
    ReferencePropertyBlock("value", ArrayName(tableName));
    DefinitionBlockAppend(ObjectHead(ResponseName(tableName)), [ResponseName(tableName)], [], {},
                          ReferenceProperty("value", ArrayName(tableName)), [], ["value"], {ArrayName(tableName)});
  }

  /**
   * The entity's definition lists PartitionKey, RowKey and Timestamp, then
   * the schema's properties in discovery order, and refers to nothing.
   */
  lemma EntityObjectBlock(tableName: string, schema: Schema)
    ensures DefinitionBlock(EntityObject(tableName, schema), [tableName], SystemPropertyNames + Keys(schema), {})
  {
    ObjectHeadBlock(tableName);
    SystemPropertiesBlock();
    SchemaPropertiesBlock(schema);
    DefinitionBlockAppend(ObjectHead(tableName), [tableName], [], {},
                          SystemProperties(), [], SystemPropertyNames, {});
    DefinitionBlockAppend(ObjectHead(tableName) + SystemProperties(), [tableName], SystemPropertyNames, {},
                          SchemaProperties(schema), [], Keys(schema), {});
  }
  /**
   * The entity definition of a sampled table declares the three system
   * properties, then exactly the names seen in the first hundred rows, each
   * once.
   */
  lemma SampledEntityProperties(tableName: string, rows: seq<Row>)
    ensures var props := Entries(EntityObject(tableName, SampledSchema(rows)), PropertyEntry);
      && |props| >= 3 && props[..3] == SystemPropertyNames
      && (forall a, b :: 3 <= a < b < |props| ==> props[a] != props[b])
      && forall name :: name in props[3..] <==>
           exists i, j :: 0 <= i < Min(SampleSize, |rows|) && 0 <= j < |rows[i]| && rows[i][j].0 == name
  {
    var schema := SampledSchema(rows);
    EntityObjectBlock(tableName, schema);
    SampledSchemaKeys(rows);
    var props := Entries(EntityObject(tableName, schema), PropertyEntry);
    assert props == SystemPropertyNames + Keys(schema);
    assert props[3..] == Keys(schema);
  }


  /**
   * A table's definitions: the entity, the array of entities and the query
   * response, in that order; the array refers to the entity and the
   * response's `value` to the array.
   */
  lemma EntityDefinitionsBlock(tableName: string, schema: Schema)
    ensures DefinitionBlock(EntityDefinitions(tableName, schema),
                            [tableName, ArrayName(tableName), ResponseName(tableName)],
                            SystemPropertyNames + Keys(schema) + ["value"],
                            {tableName, ArrayName(tableName)})
  {
    var o := EntityObject(tableName, schema);
    var props := SystemPropertyNames + Keys(schema);
    EntityObjectBlock(tableName, schema);
    ArrayDefinitionBlock(tableName);
    ResponseDefinitionBlock(tableName);
    DefinitionBlockAppend3(o, [tableName], props, {},
                           ArrayDefinition(tableName), [ArrayName(tableName)], [], {tableName},
                           ResponseDefinition(tableName), [ResponseName(tableName)], ["value"], {ArrayName(tableName)});
    TripleOf(tableName, ArrayName(tableName), ResponseName(tableName));
    AppendEmpty(props);
    SetPairOf(tableName, ArrayName(tableName));
  }

  /** The definition names of the tables, in order: entity, array, response. */
  function DefinitionNames(tables: Registry): (ns: seq<string>)
    ensures |ns| == 3 * |tables|
  {
    if tables == [] then []
    else
      var t := tables[|tables| - 1].0;
      DefinitionNames(tables[..|tables| - 1]) + [t, ArrayName(t), ResponseName(t)]
  }

  /** The property names of the tables' definitions, in order. */
  function PropertyNames(tables: Registry): seq<string>
  {
    if tables == [] then []
    else
      var t := tables[|tables| - 1];
      PropertyNames(tables[..|tables| - 1]) + (SystemPropertyNames + Keys(t.1) + ["value"])
  }

  lemma {:induction false} AllDefinitionsBlock(tables: Registry)
    ensures DefinitionBlock(AllDefinitions(tables), DefinitionNames(tables), PropertyNames(tables),
                            TableNames(tables) + ArrayNames(tables))
  {
    if tables != [] {
      var init, t := tables[..|tables| - 1], tables[|tables| - 1];
      AllDefinitionsBlock(init);
      EntityDefinitionsBlock(t.0, t.1);
      DefinitionBlockAppend(AllDefinitions(init), DefinitionNames(init), PropertyNames(init),
                            TableNames(init) + ArrayNames(init),
                            EntityDefinitions(t.0, t.1), [t.0, ArrayName(t.0), ResponseName(t.0)],
                            SystemPropertyNames + Keys(t.1) + ["value"], {t.0, ArrayName(t.0)});
      assert TableNames(tables) == TableNames(init) + {t.0};
      assert ArrayNames(tables) == ArrayNames(init) + {ArrayName(t.0)};
      assert AllDefinitions(tables) == AllDefinitions(init) + EntityDefinitions(t.0, t.1);
    }
  }

  const ErrorDefinitionNames := [ErrorResponse, ErrorDetail, ErrorMessage]

  lemma ErrorResponseBlock()
    ensures DefinitionBlock(ErrorResponseDefinition(), [ErrorResponse], ["odata.error"], {ErrorDetail})
  {
    ObjectHeadBlock(ErrorResponse);
    ReferencePropertyBlock("odata.error", ErrorDetail);
    DefinitionBlockAppend(ObjectHead(ErrorResponse), [ErrorResponse], [], {},
                          ReferenceProperty("odata.error", ErrorDetail), [], ["odata.error"], {ErrorDetail});
  }

  lemma ErrorDetailBlock()
    ensures DefinitionBlock(ErrorDetailDefinition(), [ErrorDetail], ["code", "message"], {ErrorMessage})
  {
    ObjectHeadBlock(ErrorDetail);
    PlainPropertyBlock("code", "string");
    ReferencePropertyBlock("message", ErrorMessage);
    DefinitionBlockAppend(ObjectHead(ErrorDetail), [ErrorDetail], [], {},
                          PlainProperty("code", "string"), [], ["code"], {});
    DefinitionBlockAppend(ObjectHead(ErrorDetail) + PlainProperty("code", "string"), [ErrorDetail], ["code"], {},
                          ReferenceProperty("message", ErrorMessage), [], ["message"], {ErrorMessage});
  }

  lemma ErrorMessageBlock()
    ensures DefinitionBlock(ErrorMessageDefinition(), [ErrorMessage], ["lang", "value"], {})
  {
    ObjectHeadBlock(ErrorMessage);
    PlainPropertyBlock("lang", "string");
    PlainPropertyBlock("value", "string");
    DefinitionBlockAppend(ObjectHead(ErrorMessage), [ErrorMessage], [], {},
                          PlainProperty("lang", "string"), [], ["lang"], {});
    DefinitionBlockAppend(ObjectHead(ErrorMessage) + PlainProperty("lang", "string"), [ErrorMessage], ["lang"], {},
                          PlainProperty("value", "string"), [], ["value"], {});
  }

  /**
   * The error definitions: `errorresponse` holds `odata.error`, a reference to
   * `error`, whose `message` refers to `errormessage`.
   */
  lemma ErrorDefinitionsBlock()
    ensures DefinitionBlock(ErrorDefinitions(), ErrorDefinitionNames,
                            ["odata.error", "code", "message", "lang", "value"], {ErrorDetail, ErrorMessage})
  {
    assert [ErrorResponse] + [ErrorDetail] + [ErrorMessage] == ErrorDefinitionNames;
    assert ["odata.error"] + ["code", "message"] + ["lang", "value"] == ["odata.error", "code", "message", "lang", "value"];
    ErrorResponseBlock();
    ErrorDetailBlock();
    ErrorMessageBlock();
    DefinitionBlockAppend3(ErrorResponseDefinition(), [ErrorResponse], ["odata.error"], {ErrorDetail},
                           ErrorDetailDefinition(), [ErrorDetail], ["code", "message"], {ErrorMessage},
                           ErrorMessageDefinition(), [ErrorMessage], ["lang", "value"], {});
  }

  // ---------------------------------------------------------------------
  // The document

  /** The top-level keys of the table document's head; it declares nothing else. */
  lemma TableHeaderShape(storageAccountName: string, host: string)
    ensures var h := TableHeader(storageAccountName, host);
      && Entries(h, TopLevelKey) == ["swagger: '2.0'", "info:", "host: " + host, "schemes:", "produces:", "paths:"]
      && Entries(h, PathEntry) == [] && Entries(h, DefinitionEntry) == [] && Entries(h, PropertyEntry) == []
      && Refs(h) == {}
  {
    var title, description := storageAccountName + " Table API",
      "API for the " + storageAccountName + " azure table storage service";
    var pre := Preamble(title, description, host);
    var media := [Text(" - application/json"), Text(" - application/atom+xml")];
    assert TableHeader(storageAccountName, host) == pre + [Text("produces:")] + media + [Text("paths:")];
    PreambleKeys(title, description, host);
    forall l | l in media ensures Nested(l) && !l.RefTo? {
      assert LineText(l)[0] == ' ';
    }
    HeaderEntries(pre, media, TopLevelKey);
    HeaderEntries(pre, media, PathEntry);
    HeaderEntries(pre, media, DefinitionEntry);
    HeaderEntries(pre, media, PropertyEntry);
    HeaderRefs(pre, media);
  }

  lemma HeaderRefs(pre: seq<Line>, media: seq<Line>)
    requires Refs(pre) == {}
    requires forall l | l in media :: !l.RefTo?
    ensures Refs(pre + [Text("produces:")] + media + [Text("paths:")]) == {}
  {
    RefsAppend(pre, [Text("produces:")]);
    RefsAppend(pre + [Text("produces:")], media);
    RefsAppend(pre + [Text("produces:")] + media, [Text("paths:")]);
    NoRefs(media);
    NoRefs([Text("produces:")]);
    NoRefs([Text("paths:")]);
  }

  lemma TableHeaderRefs(storageAccountName: string, host: string)
    ensures Refs(TableHeader(storageAccountName, host)) == {}
  {
    NoRefs(TableHeader(storageAccountName, host));
  }

  /** The table document's head ends the `paths:` key, and holds no path or definition. */
  lemma TableHeaderLayout(storageAccountName: string, host: string)
    ensures var h := TableHeader(storageAccountName, host);
      && CurrentSection(h) == Some("paths:")
      && (forall l | l in h :: !l.PathHead? && !l.DefHead?)
  {
  }

  lemma HeaderEntries(pre: seq<Line>, media: seq<Line>, k: EntryKind)
    requires forall l | l in media :: Nested(l)
    requires k != ParameterEntry
    ensures Entries(pre + [Text("produces:")] + media + [Text("paths:")], k)
         == Entries(pre, k) + (if k == TopLevelKey then ["produces:", "paths:"] else [])
  {
    EntriesAppend(pre, [Text("produces:")], k);
    EntriesAppend(pre + [Text("produces:")], media, k);
    EntriesAppend(pre + [Text("produces:")] + media, [Text("paths:")], k);
    OneEntry(Text("produces:"), k);
    OneEntry(Text("paths:"), k);
    NestedEntries(media, k);
  }

  /** Everything after `definitions:`. */
  function DefinitionSection(tables: Registry): seq<Line>
  {
    AllDefinitions(tables) + ErrorDefinitions()
  }

  const ErrorPropertyNames := ["odata.error", "code", "message", "lang", "value"]

  lemma DefinitionSectionBlock(tables: Registry)
    ensures DefinitionBlock(DefinitionSection(tables), DefinitionNames(tables) + ErrorDefinitionNames,
                            PropertyNames(tables) + ErrorPropertyNames,
                            TableNames(tables) + ArrayNames(tables) + {ErrorDetail, ErrorMessage})
  {
    AllDefinitionsBlock(tables);
    ErrorDefinitionsBlock();
    DefinitionBlockAppend(AllDefinitions(tables), DefinitionNames(tables), PropertyNames(tables),
                          TableNames(tables) + ArrayNames(tables),
                          ErrorDefinitions(), ErrorDefinitionNames, ErrorPropertyNames, {ErrorDetail, ErrorMessage});
  }

  // ---------------------------------------------------------------------
  // The definitions read back from the text

  lemma {:induction false} SchemaPropertiesReads(schema: Schema)
    ensures forall l | l in SchemaProperties(schema) :: DefinitionSectionLine(l)
  {
    if schema != [] {
      var p := schema[|schema| - 1];
      SchemaPropertiesReads(schema[..|schema| - 1]);
      PropertyLinesReads(p.0, p.1);
    }
  }

  lemma ReadsJoin(a: seq<Line>, b: seq<Line>)
    requires forall l | l in a :: DefinitionSectionLine(l)
    requires forall l | l in b :: DefinitionSectionLine(l)
    ensures forall l | l in a + b :: DefinitionSectionLine(l)
  {
  }

  lemma EntityObjectReads(tableName: string, schema: Schema)
    requires PlainName(tableName)
    ensures forall l | l in EntityObject(tableName, schema) :: DefinitionSectionLine(l)
  {
    ObjectHeadReads(tableName);
    PropertyLinesReads("PartitionKey", EdmType.String);
    PropertyLinesReads("RowKey", EdmType.String);
    PropertyLinesReads("Timestamp", DateTime);
    ReadsJoin(PropertyLines("PartitionKey", EdmType.String), PropertyLines("RowKey", EdmType.String));
    ReadsJoin(PropertyLines("PartitionKey", EdmType.String) + PropertyLines("RowKey", EdmType.String),
              PropertyLines("Timestamp", DateTime));
    SchemaPropertiesReads(schema);
    ReadsJoin(ObjectHead(tableName), SystemProperties());
    ReadsJoin(ObjectHead(tableName) + SystemProperties(), SchemaProperties(schema));
  }

  lemma ArrayDefinitionReads(tableName: string)
    requires PlainName(tableName)
    ensures forall l | l in ArrayDefinition(tableName) :: DefinitionSectionLine(l)
  {
    assert LineText(RefTo("      ", tableName)) == "      " + "$ref: '#/definitions/" + tableName + "'";
  }

  lemma ResponseDefinitionReads(tableName: string)
    requires PlainName(tableName)
    ensures forall l | l in ResponseDefinition(tableName) :: DefinitionSectionLine(l)
  {
    ObjectHeadReads(ResponseName(tableName));
    ReferencePropertyReads("value", ArrayName(tableName));
    ReadsJoin(ObjectHead(ResponseName(tableName)), ReferenceProperty("value", ArrayName(tableName)));
  }

  lemma EntityDefinitionsReads(tableName: string, schema: Schema)
    requires PlainName(tableName)
    ensures forall l | l in EntityDefinitions(tableName, schema) :: DefinitionSectionLine(l)
  {
    EntityObjectReads(tableName, schema);
    ArrayDefinitionReads(tableName);
    ResponseDefinitionReads(tableName);
    ReadsJoin(EntityObject(tableName, schema), ArrayDefinition(tableName));
    ReadsJoin(EntityObject(tableName, schema) + ArrayDefinition(tableName), ResponseDefinition(tableName));
  }

  lemma {:induction false} AllDefinitionsReads(tables: Registry)
    requires forall k | 0 <= k < |tables| :: PlainName(tables[k].0)
    ensures forall l | l in AllDefinitions(tables) :: DefinitionSectionLine(l)
  {
    if tables != [] {
      var t := tables[|tables| - 1];
      AllDefinitionsReads(tables[..|tables| - 1]);
      EntityDefinitionsReads(t.0, t.1);
    }
  }

  lemma ErrorDefinitionsReads()
    ensures forall l | l in ErrorDefinitions() :: DefinitionSectionLine(l)
  {
    ObjectHeadReads(ErrorResponse);
    ReferencePropertyReads("odata.error", ErrorDetail);
    ObjectHeadReads(ErrorDetail);
    PlainPropertyReads("code", "string");
    ReferencePropertyReads("message", ErrorMessage);
    ObjectHeadReads(ErrorMessage);
    PlainPropertyReads("lang", "string");
    PlainPropertyReads("value", "string");
  }

  /**
   * When no table name starts with a space, a reader of the rendered
   * `definitions:` section who goes by indentation alone finds the same
   * definition names, in the same order, as the tags say: no other line of
   * the section is indented like a definition head.
   */
  lemma DefinitionsReadFromText(tables: Registry)
    requires forall k | 0 <= k < |tables| :: PlainName(tables[k].0)
    ensures TextDefinitions(DefinitionSection(tables)) == DefinitionNames(tables) + ErrorDefinitionNames
  {
    DefinitionSectionReads(tables);
    TextDefinitionsAgree(DefinitionSection(tables));
    DefinitionSectionNames(tables);
  }

  lemma DefinitionSectionReads(tables: Registry)
    requires forall k | 0 <= k < |tables| :: PlainName(tables[k].0)
    ensures forall l | l in DefinitionSection(tables) :: DefinitionSectionLine(l)
  {
    AllDefinitionsReads(tables);
    ErrorDefinitionsReads();
    ReadsJoin(AllDefinitions(tables), ErrorDefinitions());
  }

  lemma DefinitionSectionNames(tables: Registry)
    ensures Entries(DefinitionSection(tables), DefinitionEntry) == DefinitionNames(tables) + ErrorDefinitionNames
  {
    DefinitionSectionBlock(tables);
  }

  lemma TableDocumentLayout(storageAccountName: string, host: string, tables: Registry)
    ensures TableDocument(storageAccountName, host, tables)
         == TableHeader(storageAccountName, host) + AllPaths(tables) + [Text("definitions:")] + DefinitionSection(tables)
  {
    AppendAssoc(TableHeader(storageAccountName, host) + AllPaths(tables) + [Text("definitions:")],
                AllDefinitions(tables), ErrorDefinitions());
  }

  /**
   * The table document's top-level keys: `swagger`, `info`, `host`,
   * `schemes`, `produces`, `paths` and `definitions`, each once. Unlike the
   * queue document it declares no `consumes`.
   */
  lemma TableDocumentKeys(storageAccountName: string, host: string, tables: Registry)
    ensures Entries(TableDocument(storageAccountName, host, tables), TopLevelKey)
         == ["swagger: '2.0'", "info:", "host: " + host, "schemes:", "produces:", "paths:", "definitions:"]
  {
    var h, ps, ds := TableHeader(storageAccountName, host), AllPaths(tables), DefinitionSection(tables);
    TableDocumentLayout(storageAccountName, host, tables);
    LayoutEntries(h, ps, ds, TopLevelKey);
    TableHeaderShape(storageAccountName, host);
    PathsHaveNoKeys(tables);
    DefinitionsHaveNoKeys(tables);
    SevenKeys("swagger: '2.0'", "info:", "host: " + host, "schemes:", "produces:", "paths:", "definitions:");
  }

  lemma PathsHaveNoKeys(tables: Registry)
    ensures Entries(AllPaths(tables), TopLevelKey) == []
  {
    AllPathsShape(tables);
    PathLinesEntries(AllPaths(tables));
  }

  lemma DefinitionsHaveNoKeys(tables: Registry)
    ensures Entries(DefinitionSection(tables), TopLevelKey) == []
  {
    DefinitionSectionBlock(tables);
    DefinitionBlockHasNoPaths(DefinitionSection(tables), DefinitionNames(tables) + ErrorDefinitionNames,
                              PropertyNames(tables) + ErrorPropertyNames,
                              TableNames(tables) + ArrayNames(tables) + {ErrorDetail, ErrorMessage});
  }

  lemma SevenKeys<T>(a: T, b: T, c: T, d: T, e: T, f: T, g: T)
    ensures [a, b, c, d, e, f] + [] + [g] + [] == [a, b, c, d, e, f, g]
  {
  }

  /**
   * The paths are each table and one entity of it, in table order, all
   * under the `paths:` key.
   */
  lemma TableDocumentPaths(storageAccountName: string, host: string, tables: Registry)
    ensures var doc := TableDocument(storageAccountName, host, tables);
      && Entries(doc, PathEntry) == PathNames(tables)
      && forall i | 0 <= i < |doc| && doc[i].PathHead? :: CurrentSection(doc[..i]) == Some("paths:")
  {
    TableDocumentLayout(storageAccountName, host, tables);
    PathEntriesOfSections(storageAccountName, host, tables);
    SectionsOfDocument(storageAccountName, host, tables);
  }

  lemma PathEntriesOfSections(storageAccountName: string, host: string, tables: Registry)
    ensures var h, ps, ds := TableHeader(storageAccountName, host), AllPaths(tables), DefinitionSection(tables);
      Entries(h + ps + [Text("definitions:")] + ds, PathEntry) == PathNames(tables)
  {
    var h, ps, ds := TableHeader(storageAccountName, host), AllPaths(tables), DefinitionSection(tables);
    assert Entries(h, PathEntry) == [] by {
      TableHeaderShape(storageAccountName, host);
    }
    assert Entries(ps, PathEntry) == PathNames(tables) by {
      AllPathsShape(tables);
    }
    assert Entries(ds, PathEntry) == [] by {
      DefinitionSectionBlock(tables);
      DefinitionBlockHasNoPaths(ds, DefinitionNames(tables) + ErrorDefinitionNames,
        PropertyNames(tables) + ErrorPropertyNames, TableNames(tables) + ArrayNames(tables) + {ErrorDetail, ErrorMessage});
    }
    SectionEntries(h, ps, ds, PathEntry, PathNames(tables));
  }

  /** Path heads lie under `paths:`, definition heads under `definitions:`. */
  lemma SectionsOfDocument(storageAccountName: string, host: string, tables: Registry)
    ensures var doc := TableHeader(storageAccountName, host) + AllPaths(tables) + [Text("definitions:")] + DefinitionSection(tables);
      && (forall i | 0 <= i < |doc| && doc[i].PathHead? :: CurrentSection(doc[..i]) == Some("paths:"))
      && (forall i | 0 <= i < |doc| && doc[i].DefHead? :: CurrentSection(doc[..i]) == Some("definitions:"))
  {
    var h, ps, ds := TableHeader(storageAccountName, host), AllPaths(tables), DefinitionSection(tables);
    TableHeaderLayout(storageAccountName, host);
    AllPathsShape(tables);
    DefinitionSectionBlock(tables);
    SectionLayout(h, ps, ds);
  }

  /**
   * The definitions are, table by table, the entity, its array and its
   * query response, then the three error definitions, all under the
   * `definitions:` key.
   */
  lemma TableDocumentDefinitions(storageAccountName: string, host: string, tables: Registry)
    ensures var doc := TableDocument(storageAccountName, host, tables);
      && Entries(doc, DefinitionEntry) == DefinitionNames(tables) + ErrorDefinitionNames
      && forall i | 0 <= i < |doc| && doc[i].DefHead? :: CurrentSection(doc[..i]) == Some("definitions:")
  {
    TableDocumentLayout(storageAccountName, host, tables);
    DefinitionEntriesOfSections(storageAccountName, host, tables);
    SectionsOfDocument(storageAccountName, host, tables);
  }

  lemma DefinitionEntriesOfSections(storageAccountName: string, host: string, tables: Registry)
    ensures var h, ps, ds := TableHeader(storageAccountName, host), AllPaths(tables), DefinitionSection(tables);
      Entries(h + ps + [Text("definitions:")] + ds, DefinitionEntry) == DefinitionNames(tables) + ErrorDefinitionNames
  {
    var h, ps, ds := TableHeader(storageAccountName, host), AllPaths(tables), DefinitionSection(tables);
    TableHeaderShape(storageAccountName, host);
    AllPathsShape(tables);
    PathLinesEntries(ps);
    DefinitionSectionBlock(tables);
    DefinitionsLast(h, ps, ds, DefinitionNames(tables) + ErrorDefinitionNames);
  }

  /**
   * Every `$ref` names a definition of the same document; every definition
   * is referred to exactly when there is at least one table (with none,
   * nothing refers to `errorresponse`).
   */
  lemma TableReferencesResolve(storageAccountName: string, host: string, tables: Registry)
    ensures var doc := TableDocument(storageAccountName, host, tables);
      && Refs(doc) <= EntrySet(doc, DefinitionEntry)
      && (Refs(doc) == EntrySet(doc, DefinitionEntry) <==> tables != [])
  {
    var doc := TableDocument(storageAccountName, host, tables);
    TableDocumentRefs(storageAccountName, host, tables);
    TableDocumentDefinitionSet(storageAccountName, host, tables);
    ReferenceSets(tables, Refs(doc), EntrySet(doc, DefinitionEntry));
  }

  /** Table `i` defines names `3i`, `3i + 1` and `3i + 2` of the definition list. */
  lemma {:induction false} DefinitionNamesAt(tables: Registry, i: nat)
    requires i < |tables|
    ensures DefinitionNames(tables)[3 * i] == tables[i].0
    ensures DefinitionNames(tables)[3 * i + 1] == ArrayName(tables[i].0)
    ensures DefinitionNames(tables)[3 * i + 2] == ResponseName(tables[i].0)
  {
    var init := tables[..|tables| - 1];
    if i < |init| {
      assert init[i] == tables[i];
      DefinitionNamesAt(init, i);
    }
  }

  /**
   * Definition names can repeat. In the document's list of definition names
   * (see TableDocumentDefinitions), a table whose name is another table's
   * name followed by `s` defines the other table's array name again, and a
   * table named `error` defines the shared error name again.
   */
  lemma DefinitionNamesRepeat(tables: Registry)
    ensures var defs := DefinitionNames(tables) + ErrorDefinitionNames;
      && |defs| == 3 * |tables| + 3
      && (forall i, j | 0 <= i < |tables| && 0 <= j < |tables| && tables[j].0 == ArrayName(tables[i].0) ::
            3 * i + 1 != 3 * j && defs[3 * i + 1] == defs[3 * j])
      && (forall i | 0 <= i < |tables| && tables[i].0 == ErrorDetail ::
            defs[3 * i] == defs[3 * |tables| + 1] == ErrorDetail)
  {
    var defs := DefinitionNames(tables) + ErrorDefinitionNames;
    forall i, j | 0 <= i < |tables| && 0 <= j < |tables| && tables[j].0 == ArrayName(tables[i].0)
      ensures defs[3 * i + 1] == defs[3 * j]
    {
      DefinitionNamesAt(tables, i);
      DefinitionNamesAt(tables, j);
    }
    forall i | 0 <= i < |tables| && tables[i].0 == ErrorDetail
      ensures defs[3 * i] == defs[3 * |tables| + 1] == ErrorDetail
    {
      DefinitionNamesAt(tables, i);
    }
  }

  lemma TableDocumentDefinitionSet(storageAccountName: string, host: string, tables: Registry)
    ensures EntrySet(TableDocument(storageAccountName, host, tables), DefinitionEntry)
         == TableNames(tables) + ArrayNames(tables) + ResponseNames(tables) + {ErrorResponse, ErrorDetail, ErrorMessage}
  {
    TableDocumentLayout(storageAccountName, host, tables);
    DefinitionEntriesOfSections(storageAccountName, host, tables);
    DefinitionNameSet(tables);
    SetOfConcat(DefinitionNames(tables), ErrorDefinitionNames);
    SetOfTriple(ErrorResponse, ErrorDetail, ErrorMessage);
  }

  lemma NoTableNoNames(tables: Registry)
    ensures tables == [] ==> TableNames(tables) == {} && ArrayNames(tables) == {} && ResponseNames(tables) == {}
  {
  }

  lemma TableDocumentRefs(storageAccountName: string, host: string, tables: Registry)
    ensures Refs(TableDocument(storageAccountName, host, tables))
         == (TableNames(tables) + ResponseNames(tables) + (if tables == [] then {} else {ErrorResponse}))
            + (TableNames(tables) + ArrayNames(tables) + {ErrorDetail, ErrorMessage})
  {
    var h, ps, ds := TableHeader(storageAccountName, host), AllPaths(tables), DefinitionSection(tables);
    TableDocumentLayout(storageAccountName, host, tables);
    LayoutRefs(h, ps, ds);
    TableHeaderRefs(storageAccountName, host);
    AllPathsRefs(tables);
    assert Refs(ds) == TableNames(tables) + ArrayNames(tables) + {ErrorDetail, ErrorMessage} by {
      DefinitionSectionBlock(tables);
    }
    EmptyUnion(Refs(ps), Refs(ds));
  }

  /** The references of the table document against its definitions. */
  lemma ReferenceSets(tables: Registry, refs: set<string>, defs: set<string>)
    requires refs == (TableNames(tables) + ResponseNames(tables) + (if tables == [] then {} else {ErrorResponse}))
                     + (TableNames(tables) + ArrayNames(tables) + {ErrorDetail, ErrorMessage})
    requires defs == TableNames(tables) + ArrayNames(tables) + ResponseNames(tables) + {ErrorResponse, ErrorDetail, ErrorMessage}
    ensures refs <= defs && (refs == defs <==> tables != [])
  {
    if tables == [] {
      NoTableNoNames(tables);
      assert ErrorResponse !in refs;
    }
  }

  lemma {:induction false} DefinitionNameSet(tables: Registry)
    ensures (set n | n in DefinitionNames(tables)) == TableNames(tables) + ArrayNames(tables) + ResponseNames(tables)
  {
    if tables != [] {
      var init, t := tables[..|tables| - 1], tables[|tables| - 1].0;
      DefinitionNameSet(init);
      assert DefinitionNames(tables) == DefinitionNames(init) + [t, ArrayName(t), ResponseName(t)];
      assert TableNames(tables) == TableNames(init) + {t};
      assert ArrayNames(tables) == ArrayNames(init) + {ArrayName(t)};
      assert ResponseNames(tables) == ResponseNames(init) + {ResponseName(t)};
      assert (set n | n in DefinitionNames(tables))
          == (set n | n in DefinitionNames(init)) + {t, ArrayName(t), ResponseName(t)};
    }
  }
}
