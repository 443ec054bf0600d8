/**
 * `BuildTableYaml`: the Swagger 2.0 document of the table service. Every
 * table gets two paths (the table and one entity in it) with five operations,
 * and three definitions (the entity, an array of entities and the query
 * response); three error definitions close the document.
 */
module TableYaml {
  import opened Sequences
  import opened Wrappers
  import opened DocumentLines
  import opened EdmTypes
  import opened OrderedMaps
  import opened SchemaCollector
  import opened Parameters
  import opened SwaggerFragments

  // ---------------------------------------------------------------------
  // Names

  /** The path of one entity, addressed by its partition and row keys. */
  function EntityPath(tableName: string): string
  {
    tableName + "(PartitionKey='{partitionKey}',RowKey='{rowKey}')"
  }

  /** The definition of an array of the table's entities. */
  function ArrayName(tableName: string): string { tableName + "s" }

  /** The definition of a query's response, whose `value` is that array. */
  function ResponseName(tableName: string): string { tableName + "response" }

  const ErrorResponse := "errorresponse"
  const ErrorDetail := "error"
  const ErrorMessage := "errormessage"

  // ---------------------------------------------------------------------
  // The paths of one table

  const Top := Param("$top", "Top", false, "query", "integer", Some("1000"))
  const Select := Param("$select", "Select", false, "query", "string", None)
  const Filter := Param("$filter", "Filter", false, "query", "string", None)
  const PartitionKeyParam := Param("partitionKey", "Partition Key", true, "path", "string", None)
  const RowKeyParam := Param("rowKey", "Row Key", true, "path", "string", None)
  const IfMatch := Param("If-Match", "If-Match", true, "header", "string", Some("'*'"))

  const QueryOptions := [Top, Select, Filter]
  const EntityKeys := [PartitionKeyParam, RowKeyParam]

  function SearchResponses(tableName: string): seq<Response>
  {
    [Response("200", "Success", Some(ResponseName(tableName)))]
  }

  function InsertResponses(tableName: string): seq<Response>
  {
    [ Response("201", "Created", Some(tableName)),
      Response("400", "Bad Request", Some(ErrorResponse)),
      Response("409", "Conflict", Some(ErrorResponse)) ]
  }

  function GetResponses(tableName: string): seq<Response>
  {
    [Response("200", "Success", Some(tableName)), Response("404", "Not Found", Some(ErrorResponse))]
  }

  const ReplaceResponses := [Response("204", "No Content", None)]

  const DeleteResponses := [
    Response("204", "No Content", None),
    Response("400", "Bad Request", Some(ErrorResponse)),
    Response("404", "Not Found", Some(ErrorResponse)) ]

  /** `get` on the table: a query with `$top`, `$select` and `$filter`. */
  function SearchOperation(tableName: string): seq<Line>
  {
    OperationHead("get", "Search the " + tableName + " table.")
    + TableParameterLines(tableName)
    + ParamsLines(QueryOptions)
    + Responses(SearchResponses(tableName))
  }

  /** `post` on the table: insert the entity in the body. */
  function InsertOperation(tableName: string): seq<Line>
  {
    OperationHead("post", "Insert an entity into the " + tableName + " table.")
    + TableParameterLines(tableName)
    + BodyReference(tableName)
    + Responses(InsertResponses(tableName))
  }

  /** `get` on one entity. */
  function GetOperation(tableName: string): seq<Line>
  {
    OperationHead("get", "Get an entity in the " + tableName + " table.")
    + TableParameterLines(tableName)
    + ParamsLines(EntityKeys)
    + Responses(GetResponses(tableName))
  }

  /** `put` on one entity: replace it with the body. */
  function ReplaceOperation(tableName: string): seq<Line>
  {
    OperationHead("put", "Replace an entity in the " + tableName + " table.")
    + TableParameterLines(tableName)
    + ParamsLines(EntityKeys)
    + BodyReference(tableName)
    + Responses(ReplaceResponses)
  }

  /** `delete` on one entity, guarded by `If-Match`. */
  function DeleteOperation(tableName: string): seq<Line>
  {
    OperationHead("delete", "Delete an entity from the " + tableName + " table.")
    + TableParameterLines(tableName)
    + ParamsLines(EntityKeys + [IfMatch])
    + Responses(DeleteResponses)
  }

  /** The path of the table itself: query and insert. */
  function CollectionPath(tableName: string): seq<Line>
  {
    [PathHead(tableName)] + SearchOperation(tableName) + InsertOperation(tableName)
  }

  /** The path of one entity: get, replace and delete. */
  function EntityPathLines(tableName: string): seq<Line>
  {
    [PathHead(EntityPath(tableName))]
    + GetOperation(tableName)
    + ReplaceOperation(tableName)
    + DeleteOperation(tableName)
  }

  /** The two paths of one table and their operations. */
  function TablePaths(tableName: string): seq<Line>
  {
    CollectionPath(tableName) + EntityPathLines(tableName)
  }

  function AllPaths(tables: Registry): seq<Line>
  {
    if tables == [] then [] else AllPaths(tables[..|tables| - 1]) + TablePaths(tables[|tables| - 1].0)
  }

  // ---------------------------------------------------------------------
  // The definitions of one table

  /** The properties every entity has, whatever its table. */
  function SystemProperties(): seq<Line>
  {
    PropertyLines("PartitionKey", EdmType.String)
    + PropertyLines("RowKey", EdmType.String)
    + PropertyLines("Timestamp", DateTime)
  }

  /** The properties the collector found, in the order it found them. */
  function SchemaProperties(schema: Schema): seq<Line>
  {
    if schema == [] then []
    else
      var p := schema[|schema| - 1];
      SchemaProperties(schema[..|schema| - 1]) + PropertyLines(p.0, p.1)
  }

  function ArrayDefinition(tableName: string): seq<Line>
  {
    [DefHead(ArrayName(tableName)), Text("    type: array"), Text("    items:"), RefTo("      ", tableName)]
  }

  function ResponseDefinition(tableName: string): seq<Line>
  {
    ObjectHead(ResponseName(tableName)) + ReferenceProperty("value", ArrayName(tableName))
  }

  /** The entity: its system properties, then the properties the collector found. */
  function EntityObject(tableName: string, schema: Schema): seq<Line>
  {
    ObjectHead(tableName) + SystemProperties() + SchemaProperties(schema)
  }

  /** The entity, the array of entities and the query response of one table. */
  function EntityDefinitions(tableName: string, schema: Schema): seq<Line>
  {
    EntityObject(tableName, schema) + ArrayDefinition(tableName) + ResponseDefinition(tableName)
  }

  function AllDefinitions(tables: Registry): seq<Line>
  {
    if tables == [] then []
    else
      var t := tables[|tables| - 1];
      AllDefinitions(tables[..|tables| - 1]) + EntityDefinitions(t.0, t.1)
  }

  /** The OData error body, `odata.error` ... */
  function ErrorResponseDefinition(): seq<Line>
  {
    ObjectHead(ErrorResponse) + ReferenceProperty("odata.error", ErrorDetail)
  }

  /** ... with its `code` and its `message` ... */
  function ErrorDetailDefinition(): seq<Line>
  {
    ObjectHead(ErrorDetail) + PlainProperty("code", "string") + ReferenceProperty("message", ErrorMessage)
  }

  /** ... which has a language and a text. */
  function ErrorMessageDefinition(): seq<Line>
  {
    ObjectHead(ErrorMessage) + PlainProperty("lang", "string") + PlainProperty("value", "string")
  }

  function ErrorDefinitions(): seq<Line>
  {
    ErrorResponseDefinition() + ErrorDetailDefinition() + ErrorMessageDefinition()
  }

  // ---------------------------------------------------------------------
  // The document

  function TableHeader(storageAccountName: string, host: string): seq<Line>
  {
    Preamble(storageAccountName + " Table API",
             "API for the " + storageAccountName + " azure table storage service", host)
    + [Text("produces:")]
    + [Text(" - application/json"), Text(" - application/atom+xml")]
    + [Text("paths:")]
  }

  /** The whole document, for the tables and schemas the collector registered. */
  function TableDocument(storageAccountName: string, host: string, tables: Registry): seq<Line>
  {
    TableHeader(storageAccountName, host)
    + AllPaths(tables)
    + [Text("definitions:")]
    + AllDefinitions(tables)
    + ErrorDefinitions()
  }

  // ---------------------------------------------------------------------
  // The builder

  method AppendSearchOperation(sb: LineBuffer, tableName: string)
    modifies sb
    ensures sb.lines == old(sb.lines) + SearchOperation(tableName)
  {
    AppendLines(sb, OperationHead("get", "Search the " + tableName + " table."));
    AddTableParameters(tableName, sb);
    AppendParams(sb, QueryOptions);
    AppendLines(sb, Responses(SearchResponses(tableName)));
  }

  method AppendInsertOperation(sb: LineBuffer, tableName: string)
    modifies sb
    ensures sb.lines == old(sb.lines) + InsertOperation(tableName)
  {
    AppendLines(sb, OperationHead("post", "Insert an entity into the " + tableName + " table."));
    AddTableParameters(tableName, sb);
    AppendLines(sb, BodyReference(tableName));
    AppendLines(sb, Responses(InsertResponses(tableName)));
  }

  method AppendGetOperation(sb: LineBuffer, tableName: string)
    modifies sb
    ensures sb.lines == old(sb.lines) + GetOperation(tableName)
  {
    AppendLines(sb, OperationHead("get", "Get an entity in the " + tableName + " table."));
    AddTableParameters(tableName, sb);
    AppendParams(sb, EntityKeys);
    AppendLines(sb, Responses(GetResponses(tableName)));
  }

  method AppendReplaceOperation(sb: LineBuffer, tableName: string)
    modifies sb
    ensures sb.lines == old(sb.lines) + ReplaceOperation(tableName)
  {
    AppendLines(sb, OperationHead("put", "Replace an entity in the " + tableName + " table."));
    AddTableParameters(tableName, sb);
    AppendParams(sb, EntityKeys);
    AppendLines(sb, BodyReference(tableName));
    AppendLines(sb, Responses(ReplaceResponses));
  }

  method AppendDeleteOperation(sb: LineBuffer, tableName: string)
    modifies sb
    ensures sb.lines == old(sb.lines) + DeleteOperation(tableName)
  {
    AppendLines(sb, OperationHead("delete", "Delete an entity from the " + tableName + " table."));
    AddTableParameters(tableName, sb);
    AppendParams(sb, EntityKeys + [IfMatch]);
    AppendLines(sb, Responses(DeleteResponses));
  }

  method AppendCollectionPath(sb: LineBuffer, tableName: string)
    modifies sb
    ensures sb.lines == old(sb.lines) + CollectionPath(tableName)
  {
    ghost var start := sb.lines;
    sb.AppendLine(PathHead(tableName));
    AppendSearchOperation(sb, tableName);
    AppendAssoc(start, [PathHead(tableName)], SearchOperation(tableName));
    ghost var done := [PathHead(tableName)] + SearchOperation(tableName);
    AppendInsertOperation(sb, tableName);
    AppendAssoc(start, done, InsertOperation(tableName));
  }

  method AppendEntityPath(sb: LineBuffer, tableName: string)
    modifies sb
    ensures sb.lines == old(sb.lines) + EntityPathLines(tableName)
  {
    ghost var start := sb.lines;
    sb.AppendLine(PathHead(EntityPath(tableName)));
    ghost var done := [PathHead(EntityPath(tableName))];
    AppendGetOperation(sb, tableName);
    AppendAssoc(start, done, GetOperation(tableName));
    done := done + GetOperation(tableName);
    AppendReplaceOperation(sb, tableName);
    AppendAssoc(start, done, ReplaceOperation(tableName));
    done := done + ReplaceOperation(tableName);
    AppendDeleteOperation(sb, tableName);
    AppendAssoc(start, done, DeleteOperation(tableName));
  }

  method AppendTablePaths(sb: LineBuffer, tableName: string)
    modifies sb
    ensures sb.lines == old(sb.lines) + TablePaths(tableName)
  {
    ghost var start := sb.lines;
    AppendCollectionPath(sb, tableName);
    AppendEntityPath(sb, tableName);
    AppendAssoc(start, CollectionPath(tableName), EntityPathLines(tableName));
  }

  /** One property: its type, and its format only when the type has one. */
  method AppendProperty(sb: LineBuffer, name: string, t: EdmType)
    modifies sb
    ensures sb.lines == old(sb.lines) + PropertyLines(name, t)
  {
    sb.AppendLine(PropHead(name));
    sb.AppendLine(Text("        type: " + PropertyTypeName(t)));
    var format := PropertyFormat(t);
    if format.Some? {
      sb.AppendLine(Text("        format: " + format.value));
    }
  }

  /** The entity's definition, with the inner `foreach` over its schema. */
  method AppendEntityObject(sb: LineBuffer, tableName: string, schema: Schema)
    modifies sb
    ensures sb.lines == old(sb.lines) + EntityObject(tableName, schema)
  {
    ghost var start := sb.lines;
    AppendLines(sb, ObjectHead(tableName));
    AppendLines(sb, SystemProperties());
    ghost var before := sb.lines;
    for j := 0 to |schema|
      invariant sb.lines == before + SchemaProperties(schema[..j])
    {
      AppendProperty(sb, schema[j].0, schema[j].1);
      assert schema[..j + 1][..j] == schema[..j];
      AppendAssoc(before, SchemaProperties(schema[..j]), PropertyLines(schema[j].0, schema[j].1));
    }
    WholePrefix(schema);
    AppendAssoc(start, ObjectHead(tableName), SystemProperties());
    AppendAssoc(start, ObjectHead(tableName) + SystemProperties(), SchemaProperties(schema));
  }

  method AppendEntityDefinitions(sb: LineBuffer, tableName: string, schema: Schema)
    modifies sb
    ensures sb.lines == old(sb.lines) + EntityDefinitions(tableName, schema)
  {
    ghost var start := sb.lines;
    AppendEntityObject(sb, tableName, schema);
    AppendLines(sb, ArrayDefinition(tableName));
    AppendAssoc(start, EntityObject(tableName, schema), ArrayDefinition(tableName));
    AppendLines(sb, ResponseDefinition(tableName));
    AppendAssoc(start, EntityObject(tableName, schema) + ArrayDefinition(tableName), ResponseDefinition(tableName));
  }

  /** The first `foreach` over the tables: their paths. */
  method AppendAllPaths(sb: LineBuffer, tables: Registry)
    modifies sb
    ensures sb.lines == old(sb.lines) + AllPaths(tables)
  {
    ghost var before := sb.lines;
    for i := 0 to |tables|
      invariant sb.lines == before + AllPaths(tables[..i])
    {
      AppendTablePaths(sb, tables[i].0);
      PrefixStep(tables, i);
      AppendAssoc(before, AllPaths(tables[..i]), TablePaths(tables[i].0));
    }
    WholePrefix(tables);
  }

  /** The second `foreach` over the tables: their definitions. */
  method AppendAllDefinitions(sb: LineBuffer, tables: Registry)
    modifies sb
    ensures sb.lines == old(sb.lines) + AllDefinitions(tables)
  {
    ghost var before := sb.lines;
    for i := 0 to |tables|
      invariant sb.lines == before + AllDefinitions(tables[..i])
    {
      AppendEntityDefinitions(sb, tables[i].0, tables[i].1);
      PrefixStep(tables, i);
      AppendAssoc(before, AllDefinitions(tables[..i]), EntityDefinitions(tables[i].0, tables[i].1));
    }
    WholePrefix(tables);
  }

  /** The text `BuildTableYaml` returns, line by line. */
  method BuildTableYaml(storageAccountName: string, host: string, tables: Registry)
    returns (yaml: seq<string>)
    ensures yaml == Render(TableDocument(storageAccountName, host, tables))
  {
    var sb := new LineBuffer();
    var header := TableHeader(storageAccountName, host);
    AppendLines(sb, header);
    assert sb.lines == header;
    AppendAllPaths(sb, tables);
    sb.AppendLine(Text("definitions:"));
    AppendAllDefinitions(sb, tables);
    AppendLines(sb, ErrorDefinitions());
    assert sb.lines == header + AllPaths(tables) + [Text("definitions:")] + AllDefinitions(tables) + ErrorDefinitions();
    yaml := Render(sb.lines);
  }
}
