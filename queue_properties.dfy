/**
 * What the queue document promises, and where the builder's layout breaks it:
 * `BuildQueueYaml` writes the `definitions:` key once per queue, so with two
 * queues the document repeats a top-level key and the second queue's path
 * falls under `definitions:`. The document with one `definitions:` section
 * after all paths keeps every promise, and is what the builder writes when
 * there is exactly one queue.
 */
module QueueYamlProperties {
  import opened Sequences
  import opened Wrappers
  import opened DocumentLines
  import opened Parameters
  import opened SwaggerFragments
  import opened QueueYaml

  // ---------------------------------------------------------------------
  // Operations and paths

  lemma QueueParameterLinesNested(queueName: string)
    ensures forall l | l in QueueParameterLines(queueName) :: Nested(l)
    ensures Refs(QueueParameterLines(queueName)) == {}
  {
    QueueParameterOrder(queueName);
    ParameterBlockNested(queueName, SasParameters(QueuePermissions) + [Timeout]);
  }

  /** An operation made of a head, the queue's parameter block, more parameters and responses. */
  lemma QueueOperationShape(verb: string, summary: string, queueName: string, ps: seq<Param>, rs: seq<Response>)
    ensures var op := OperationHead(verb, summary) + QueueParameterLines(queueName) + ParamsLines(ps) + Responses(rs);
      && (forall l | l in op :: Nested(l))
      && Refs(op) == Schemas(rs)
  {
    var head := OperationHead(verb, summary);
    OperationHeadNested(verb, summary);
    QueueParameterLinesNested(queueName);
    ParamsNested(ps);
    ParamsLinesShape(ps);
    ResponsesShape(rs);
    RefsAppend(head, QueueParameterLines(queueName));
    RefsAppend(head + QueueParameterLines(queueName), ParamsLines(ps));
    RefsAppend(head + QueueParameterLines(queueName) + ParamsLines(ps), Responses(rs));
  }

  lemma GetMessagesSchemas()
    ensures Schemas(GetMessagesResponses) == {}
  {
  }

  lemma PutMessageSchemas()
    ensures Schemas(PutMessageResponses) == {ErrorMessage}
  {
    var rs := PutMessageResponses;
    SchemasSnoc([], rs[0]);
    SchemasSnoc([rs[0]], rs[1]);
    assert [] + [rs[0]] == [rs[0]];
    assert [rs[0]] + [rs[1]] == rs;
  }

  /** The two operations of a queue's path stay inside it and refer only to `ErrorMessage`. */
  lemma QueueOperationsShape(queueName: string)
    ensures var ops := GetMessagesOperation(queueName) + PutMessageOperation(queueName);
      (forall l | l in ops :: Nested(l)) && Refs(ops) == {ErrorMessage}
  {
    QueueOperationShape("get", "Retrieves one or more messages from the front of the " + queueName + " queue.",
                        queueName, GetMessagesParameters, GetMessagesResponses);
    QueueOperationShape("post", "Adds a new message to the back of the message the " + queueName + " queue.",
                        queueName, PutMessageParameters, PutMessageResponses);
    GetMessagesSchemas();
    PutMessageSchemas();
    RefsAppend(GetMessagesOperation(queueName), PutMessageOperation(queueName));
  }

  /** Retrieving messages documents no error body; adding one refers to `ErrorMessage` for 400. */
  lemma QueuePathShape(queueName: string)
    ensures forall l | l in QueuePath(queueName) :: InPaths(l)
    ensures Entries(QueuePath(queueName), PathEntry) == [MessagesPath(queueName)]
    ensures Refs(QueuePath(queueName)) == {ErrorMessage}
  {
    var get, put := GetMessagesOperation(queueName), PutMessageOperation(queueName);
    QueueOperationsShape(queueName);
    AppendAssoc([PathHead(MessagesPath(queueName))], get, put);
    PathShape(MessagesPath(queueName), get + put);
  }

  /** The paths of the queues, in the order the service lists them. */
  function MessagesPaths(queues: seq<string>): (paths: seq<string>)
    ensures |paths| == |queues|
  {
    if queues == [] then [] else MessagesPaths(queues[..|queues| - 1]) + [MessagesPath(queues[|queues| - 1])]
  }

  /** Every queue contributes one path, in order, and the paths refer only to `ErrorMessage`. */
  lemma AllQueuePathsShape(queues: seq<string>)
    ensures forall l | l in AllQueuePaths(queues) :: InPaths(l)
    ensures Entries(AllQueuePaths(queues), PathEntry) == MessagesPaths(queues)
    ensures Refs(AllQueuePaths(queues)) == if queues == [] then {} else {ErrorMessage}
  {
    AllQueuePathsInPaths(queues);
    AllQueuePathsEntries(queues);
    AllQueuePathsRefs(queues);
  }

  lemma AllQueuePathsSnoc(queues: seq<string>)
    requires queues != []
    ensures AllQueuePaths(queues) == AllQueuePaths(queues[..|queues| - 1]) + QueuePath(queues[|queues| - 1])
    ensures MessagesPaths(queues) == MessagesPaths(queues[..|queues| - 1]) + [MessagesPath(queues[|queues| - 1])]
  {
  }

  lemma {:induction false} AllQueuePathsInPaths(queues: seq<string>)
    ensures forall l | l in AllQueuePaths(queues) :: InPaths(l)
  {
    if queues != [] {
      var init, q := queues[..|queues| - 1], queues[|queues| - 1];
      AllQueuePathsSnoc(queues);
      AllQueuePathsInPaths(init);
      QueuePathShape(q);
    }
  }

  lemma {:induction false} AllQueuePathsEntries(queues: seq<string>)
    ensures Entries(AllQueuePaths(queues), PathEntry) == MessagesPaths(queues)
  {
    if queues != [] {
      var init, q := queues[..|queues| - 1], queues[|queues| - 1];
      AllQueuePathsSnoc(queues);
      AllQueuePathsEntries(init);
      QueuePathShape(q);
      EntriesAppend(AllQueuePaths(init), QueuePath(q), PathEntry);
    }
  }

  lemma {:induction false} AllQueuePathsRefs(queues: seq<string>)
    ensures Refs(AllQueuePaths(queues)) == if queues == [] then {} else {ErrorMessage}
  {
    if queues != [] {
      var init, q := queues[..|queues| - 1], queues[|queues| - 1];
      AllQueuePathsSnoc(queues);
      AllQueuePathsRefs(init);
      QueuePathShape(q);
      RefsAppend(AllQueuePaths(init), QueuePath(q));
      UnionSingleton(Refs(AllQueuePaths(init)), ErrorMessage);
    }
  }

  // ---------------------------------------------------------------------
  // Definitions

  const MessageProperties := ["MessageText"]
  const ErrorMessageProperties := ["Code", "Message", "LineNumber", "LinePosition", "Reason"]

  lemma QueueMessageBlock()
    ensures DefinitionBlock(QueueMessageDefinition(), [QueueMessage], MessageProperties, {})
  {
    ObjectHeadBlock(QueueMessage);
    PlainPropertyBlock("MessageText", "string");
    DefinitionBlockAppend(ObjectHead(QueueMessage), [QueueMessage], [], {},
                          PlainProperty("MessageText", "string"), [], ["MessageText"], {});
  }

  lemma ErrorMessageBlock()
    ensures DefinitionBlock(ErrorMessageDefinition(), [ErrorMessage], ErrorMessageProperties, {})
  {
    var a := ObjectHead(ErrorMessage) + PlainProperty("Code", "string");
    assert DefinitionBlock(a, [ErrorMessage], ["Code"], {}) by {
      ObjectHeadBlock(ErrorMessage);
      PlainPropertyBlock("Code", "string");
      DefinitionBlockAppend(ObjectHead(ErrorMessage), [ErrorMessage], [], {},
                            PlainProperty("Code", "string"), [], ["Code"], {});
    }
    var b := a + PlainProperty("Message", "string");
    assert DefinitionBlock(b, [ErrorMessage], ["Code", "Message"], {}) by {
      PlainPropertyBlock("Message", "string");
      DefinitionBlockAppend(a, [ErrorMessage], ["Code"], {}, PlainProperty("Message", "string"), [], ["Message"], {});
    }
    var c := b + PlainProperty("LineNumber", "integer");
    assert DefinitionBlock(c, [ErrorMessage], ["Code", "Message", "LineNumber"], {}) by {
      PlainPropertyBlock("LineNumber", "integer");
      DefinitionBlockAppend(b, [ErrorMessage], ["Code", "Message"], {},
                            PlainProperty("LineNumber", "integer"), [], ["LineNumber"], {});
    }
    var d := c + PlainProperty("LinePosition", "integer");
    assert DefinitionBlock(d, [ErrorMessage], ["Code", "Message", "LineNumber", "LinePosition"], {}) by {
      PlainPropertyBlock("LinePosition", "integer");
      DefinitionBlockAppend(c, [ErrorMessage], ["Code", "Message", "LineNumber"], {},
                            PlainProperty("LinePosition", "integer"), [], ["LinePosition"], {});
    }
    assert DefinitionBlock(d + PlainProperty("Reason", "string"), [ErrorMessage], ErrorMessageProperties, {}) by {
      PlainPropertyBlock("Reason", "string");
      DefinitionBlockAppend(d, [ErrorMessage], ["Code", "Message", "LineNumber", "LinePosition"], {},
                            PlainProperty("Reason", "string"), [], ["Reason"], {});
    }
  }

  /** The two definitions every queue's operations can refer to. */
  lemma QueueDefinitionsBlock()
    ensures DefinitionBlock(QueueDefinitions(), [QueueMessage, ErrorMessage],
                            MessageProperties + ErrorMessageProperties, {})
  {
    QueueMessageBlock();
    ErrorMessageBlock();
    DefinitionBlockAppend(QueueMessageDefinition(), [QueueMessage], MessageProperties, {},
                          ErrorMessageDefinition(), [ErrorMessage], ErrorMessageProperties, {});
  }

  /**
   * A reader of the rendered `definitions:` section who goes by indentation
   * alone finds `QueueMessage` and `ErrorMessage`, as the tags say.
   */
  lemma QueueDefinitionsReadFromText()
    ensures TextDefinitions(QueueDefinitions()) == [QueueMessage, ErrorMessage]
  {
    ObjectHeadReads(QueueMessage);
    PlainPropertyReads("MessageText", "string");
    ObjectHeadReads(ErrorMessage);
    PlainPropertyReads("Code", "string");
    PlainPropertyReads("Message", "string");
    PlainPropertyReads("LineNumber", "integer");
    PlainPropertyReads("LinePosition", "integer");
    PlainPropertyReads("Reason", "string");
    TextDefinitionsAgree(QueueDefinitions());
    QueueDefinitionsBlock();
  }

  // ---------------------------------------------------------------------
  // The header


  /** The header's keys; unlike the table document it declares what the service consumes. */
  lemma QueueHeaderShape(storageAccountName: string, host: string)
    ensures var h := QueueHeader(storageAccountName, host);
      && Entries(h, TopLevelKey)
         == ["swagger: '2.0'", "info:", "host: " + host, "schemes:", "produces:", "consumes:", "paths:"]
      && Entries(h, PathEntry) == [] && Entries(h, DefinitionEntry) == []
      && Refs(h) == {}
  {
    QueueHeaderKeys(storageAccountName, host);
    QueueHeaderDeclaresNothing(storageAccountName, host);
  }

  lemma QueueHeaderKeys(storageAccountName: string, host: string)
    ensures Entries(QueueHeader(storageAccountName, host), TopLevelKey)
         == ["swagger: '2.0'", "info:", "host: " + host, "schemes:", "produces:", "consumes:", "paths:"]
  {
    var title, description := storageAccountName + " Queue API", "API for the " + storageAccountName + " queue service";
    var pre := Preamble(title, description, host);
    assert QueueHeader(storageAccountName, host) == MediaTypes(pre);
    PreambleTopLevel(title, description, host);
    MediaTypesKeys(pre);
    FourThenThree("swagger: '2.0'", "info:", "host: " + host, "schemes:", "produces:", "consumes:", "paths:");
  }

  lemma QueueHeaderDeclaresNothing(storageAccountName: string, host: string)
    ensures var h := QueueHeader(storageAccountName, host);
      Entries(h, PathEntry) == [] && Entries(h, DefinitionEntry) == [] && Refs(h) == {}
  {
    var title, description := storageAccountName + " Queue API", "API for the " + storageAccountName + " queue service";
    var pre := Preamble(title, description, host);
    assert QueueHeader(storageAccountName, host) == MediaTypes(pre);
    PreambleKeys(title, description, host);
    MediaTypesNoEntries(pre, PathEntry);
    MediaTypesNoEntries(pre, DefinitionEntry);
    MediaTypesRefs(pre);
  }

  /** The preamble followed by the media types and `paths:`. */
  function MediaTypes(pre: seq<Line>): seq<Line>
  {
    pre + [Text("produces:")] + [Text(" - application/xml")] + [Text("consumes:")] + [Text(" - application/xml")]
    + [Text("paths:")]
  }

  lemma MediaTypesKeys(pre: seq<Line>)
    ensures Entries(MediaTypes(pre), TopLevelKey) == Entries(pre, TopLevelKey) + ["produces:", "consumes:", "paths:"]
  {
    var a := pre + [Text("produces:")];
    var b := a + [Text(" - application/xml")];
    var c := b + [Text("consumes:")];
    var d := c + [Text(" - application/xml")];
    EntriesSnoc(pre, Text("produces:"), TopLevelKey);
    EntriesSnoc(a, Text(" - application/xml"), TopLevelKey);
    EntriesSnoc(b, Text("consumes:"), TopLevelKey);
    EntriesSnoc(c, Text(" - application/xml"), TopLevelKey);
    EntriesSnoc(d, Text("paths:"), TopLevelKey);
    assert LineText(Text(" - application/xml"))[0] == ' ';
    ThreeWithGaps(Entries(pre, TopLevelKey), "produces:", "consumes:", "paths:");
  }

  lemma MediaTypesNoEntries(pre: seq<Line>, k: EntryKind)
    requires k != TopLevelKey
    ensures Entries(MediaTypes(pre), k) == Entries(pre, k)
  {
    var a := pre + [Text("produces:")];
    var b := a + [Text(" - application/xml")];
    var c := b + [Text("consumes:")];
    var d := c + [Text(" - application/xml")];
    EntriesSnoc(pre, Text("produces:"), k);
    EntriesSnoc(a, Text(" - application/xml"), k);
    EntriesSnoc(b, Text("consumes:"), k);
    EntriesSnoc(c, Text(" - application/xml"), k);
    EntriesSnoc(d, Text("paths:"), k);
  }

  lemma MediaTypesRefs(pre: seq<Line>)
    ensures Refs(MediaTypes(pre)) == Refs(pre)
  {
    NoRefs(MediaTypes(pre)[|pre|..]);
    assert MediaTypes(pre) == pre + MediaTypes(pre)[|pre|..];
    RefsAppend(pre, MediaTypes(pre)[|pre|..]);
  }

  /** The header ends the `paths:` key, and holds no path or definition. */
  lemma QueueHeaderLayout(storageAccountName: string, host: string)
    ensures var h := QueueHeader(storageAccountName, host);
      && CurrentSection(h) == Some("paths:")
      && (forall l | l in h :: !l.PathHead? && !l.DefHead?)
  {
  }

  // ---------------------------------------------------------------------
  // The document with one `definitions:` section

  /** Each top-level key once: the header's, then `definitions:`. */
  lemma SingleDefinitionsKeys(storageAccountName: string, host: string, queues: seq<string>)
    ensures Entries(SingleDefinitionsQueueDocument(storageAccountName, host, queues), TopLevelKey)
         == ["swagger: '2.0'", "info:", "host: " + host, "schemes:", "produces:", "consumes:", "paths:", "definitions:"]
  {
    var h, ps, ds := QueueHeader(storageAccountName, host), AllQueuePaths(queues), QueueDefinitions();
    var keys := ["swagger: '2.0'", "info:", "host: " + host, "schemes:", "produces:", "consumes:", "paths:"];
    QueueHeaderKeys(storageAccountName, host);
    assert Entries(ps, TopLevelKey) == [] by {
      AllQueuePathsInPaths(queues);
      NoEntriesIn(ps, TopLevelKey);
    }
    assert Entries(ds, TopLevelKey) == [] by {
      QueueDefinitionsNotTopLevel();
      NoEntriesIn(ds, TopLevelKey);
    }
    SectionKeys(h, ps, ds, keys);
    SevenThenOne("swagger: '2.0'", "info:", "host: " + host, "schemes:", "produces:", "consumes:", "paths:", "definitions:");
  }

  lemma SectionKeys(h: seq<Line>, ps: seq<Line>, ds: seq<Line>, keys: seq<string>)
    requires Entries(h, TopLevelKey) == keys && Entries(ps, TopLevelKey) == [] && Entries(ds, TopLevelKey) == []
    ensures Entries(h + ps + [Text("definitions:")] + ds, TopLevelKey) == keys + ["definitions:"]
  {
    LayoutEntries(h, ps, ds, TopLevelKey);
  }

  /** One path per queue, in order, every path under `paths:`. */
  lemma SingleDefinitionsPaths(storageAccountName: string, host: string, queues: seq<string>)
    ensures var doc := SingleDefinitionsQueueDocument(storageAccountName, host, queues);
      && Entries(doc, PathEntry) == MessagesPaths(queues)
      && forall i | 0 <= i < |doc| && doc[i].PathHead? :: CurrentSection(doc[..i]) == Some("paths:")
  {
    var h, ps, ds := QueueHeader(storageAccountName, host), AllQueuePaths(queues), QueueDefinitions();
    QueueHeaderDeclaresNothing(storageAccountName, host);
    AllQueuePathsEntries(queues);
    assert Entries(ds, PathEntry) == [] by {
      QueueDefinitionsBlock();
      DefinitionBlockHasNoPaths(ds, [QueueMessage, ErrorMessage], MessageProperties + ErrorMessageProperties, {});
    }
    SectionEntries(h, ps, ds, PathEntry, MessagesPaths(queues));
    SingleDefinitionsSections(storageAccountName, host, queues);
  }

  /** `QueueMessage` and `ErrorMessage`, once each, under `definitions:`. */
  lemma SingleDefinitionsDefinitions(storageAccountName: string, host: string, queues: seq<string>)
    ensures var doc := SingleDefinitionsQueueDocument(storageAccountName, host, queues);
      && Entries(doc, DefinitionEntry) == [QueueMessage, ErrorMessage]
      && forall i | 0 <= i < |doc| && doc[i].DefHead? :: CurrentSection(doc[..i]) == Some("definitions:")
  {
    SingleDefinitionsDefinitionEntries(storageAccountName, host, queues);
    SingleDefinitionsSections(storageAccountName, host, queues);
  }

  lemma SingleDefinitionsDefinitionEntries(storageAccountName: string, host: string, queues: seq<string>)
    ensures Entries(SingleDefinitionsQueueDocument(storageAccountName, host, queues), DefinitionEntry)
         == [QueueMessage, ErrorMessage]
  {
    var h, ps, ds := QueueHeader(storageAccountName, host), AllQueuePaths(queues), QueueDefinitions();
    QueueHeaderDeclaresNothing(storageAccountName, host);
    assert Entries(ps, DefinitionEntry) == [] by {
      AllQueuePathsInPaths(queues);
      NoEntriesIn(ps, DefinitionEntry);
    }
    assert Entries(ds, DefinitionEntry) == [QueueMessage, ErrorMessage] by {
      QueueDefinitionsBlock();
    }
    LayoutEntries(h, ps, ds, DefinitionEntry);
  }

  lemma SingleDefinitionsSections(storageAccountName: string, host: string, queues: seq<string>)
    ensures var doc := SingleDefinitionsQueueDocument(storageAccountName, host, queues);
      && (forall i | 0 <= i < |doc| && doc[i].PathHead? :: CurrentSection(doc[..i]) == Some("paths:"))
      && (forall i | 0 <= i < |doc| && doc[i].DefHead? :: CurrentSection(doc[..i]) == Some("definitions:"))
  {
    var h, ps, ds := QueueHeader(storageAccountName, host), AllQueuePaths(queues), QueueDefinitions();
    QueueHeaderLayout(storageAccountName, host);
    AllQueuePathsInPaths(queues);
    QueueDefinitionsBlock();
    SectionLayout(h, ps, ds);
  }

  /** Every `$ref` (there is one per queue, to `ErrorMessage`) names a definition of the document. */
  lemma SingleDefinitionsReferencesResolve(storageAccountName: string, host: string, queues: seq<string>)
    ensures var doc := SingleDefinitionsQueueDocument(storageAccountName, host, queues);
      && Refs(doc) == (if queues == [] then {} else {ErrorMessage})
      && Refs(doc) <= EntrySet(doc, DefinitionEntry)
  {
    var h, ps, ds := QueueHeader(storageAccountName, host), AllQueuePaths(queues), QueueDefinitions();
    LayoutRefs(h, ps, ds);
    QueueHeaderDeclaresNothing(storageAccountName, host);
    AllQueuePathsRefs(queues);
    assert Refs(ds) == {} by {
      QueueDefinitionsBlock();
    }
    EmptySides(Refs(h), Refs(ps), Refs(ds));
    SingleDefinitionsDefinitionEntries(storageAccountName, host, queues);
    assert ErrorMessage in [QueueMessage, ErrorMessage];
    AtMostOneIn(Refs(ps), [QueueMessage, ErrorMessage], ErrorMessage);
  }

  // ---------------------------------------------------------------------
  // The document as the builder writes it

  /** `n` copies of `key`. */
  function Repeat(key: string, n: nat): (keys: seq<string>)
    ensures |keys| == n
  {
    if n == 0 then [] else Repeat(key, n - 1) + [key]
  }

  lemma QueueBlockKeys(queueName: string)
    ensures Entries(QueueBlock(queueName), TopLevelKey) == ["definitions:"]
  {
    var ps, ds := QueuePath(queueName), QueueDefinitions();
    assert Entries(ps, TopLevelKey) == [] by {
      QueuePathShape(queueName);
      NoEntriesIn(ps, TopLevelKey);
    }
    assert Entries(ds, TopLevelKey) == [] by {
      QueueDefinitionsBlock();
      NoEntriesIn(ds, TopLevelKey);
    }
    EntriesAppend(ps, [Text("definitions:")], TopLevelKey);
    EntriesAppend(ps + [Text("definitions:")], ds, TopLevelKey);
    OneEntry(Text("definitions:"), TopLevelKey);
  }

  lemma {:induction false} AllQueueBlocksKeys(queues: seq<string>)
    ensures Entries(AllQueueBlocks(queues), TopLevelKey) == Repeat("definitions:", |queues|)
  {
    if queues != [] {
      var init, q := queues[..|queues| - 1], queues[|queues| - 1];
      AllQueueBlocksKeys(init);
      QueueBlockKeys(q);
      EntriesAppend(AllQueueBlocks(init), QueueBlock(q), TopLevelKey);
    }
  }

  /** The builder's document repeats the top-level key `definitions:` once per queue. */
  lemma QueueDocumentKeys(storageAccountName: string, host: string, queues: seq<string>)
    ensures Entries(QueueDocument(storageAccountName, host, queues), TopLevelKey)
         == ["swagger: '2.0'", "info:", "host: " + host, "schemes:", "produces:", "consumes:", "paths:"]
            + Repeat("definitions:", |queues|)
  {
    QueueHeaderShape(storageAccountName, host);
    AllQueueBlocksKeys(queues);
    EntriesAppend(QueueHeader(storageAccountName, host), AllQueueBlocks(queues), TopLevelKey);
  }

  /**
   * With two queues, the second queue's path comes right after the first
   * queue's definitions, so it is read as part of `definitions:` and not as a
   * path.
   */
  lemma SecondQueueUnderDefinitions(storageAccountName: string, host: string, a: string, b: string)
    ensures SecondPathIndex(storageAccountName, host, a) < |QueueDocument(storageAccountName, host, [a, b])|
    ensures QueueDocument(storageAccountName, host, [a, b])[SecondPathIndex(storageAccountName, host, a)]
         == PathHead(MessagesPath(b))
    ensures CurrentSection(QueueDocument(storageAccountName, host, [a, b])[..SecondPathIndex(storageAccountName, host, a)])
         == Some("definitions:")
  {
    TwoQueueDocument(storageAccountName, host, a, b);
    QueueDefinitionsNotTopLevel();
    QueueBlockHead(b);
    SecondBlockUnderDefinitions(QueueDocument(storageAccountName, host, [a, b]), SecondPathIndex(storageAccountName, host, a),
                                QueueHeader(storageAccountName, host), QueuePath(a), QueueDefinitions(), QueueBlock(b));
  }

  /** Where the builder writes the second queue's path line: after the header and the first queue's block. */
  function SecondPathIndex(storageAccountName: string, host: string, a: string): nat
  {
    |QueueHeader(storageAccountName, host)| + |QueueBlock(a)|
  }

  lemma TwoQueueDocument(storageAccountName: string, host: string, a: string, b: string)
    ensures QueueDocument(storageAccountName, host, [a, b])
         == QueueHeader(storageAccountName, host) + ((QueuePath(a) + [Text("definitions:")] + QueueDefinitions()) + QueueBlock(b))
    ensures SecondPathIndex(storageAccountName, host, a)
         == |QueueHeader(storageAccountName, host)| + |QueuePath(a) + [Text("definitions:")] + QueueDefinitions()|
  {
    TwoQueueBlocks(a, b);
  }

  lemma QueueBlockHead(q: string)
    ensures QueueBlock(q) != [] && QueueBlock(q)[0] == PathHead(MessagesPath(q))
  {
    var p := QueuePath(q);
    assert p[0] == PathHead(MessagesPath(q));
    assert QueueBlock(q) == p + ([Text("definitions:")] + QueueDefinitions());
  }

  lemma QueueDefinitionsNotTopLevel()
    ensures forall l | l in QueueDefinitions() :: !IsTopLevel(l)
  {
    QueueDefinitionsBlock();
  }

  /** A block written after a path and a `definitions:` section lies in that section. */
  lemma SecondBlockUnderDefinitions(doc: seq<Line>, k: int, h: seq<Line>, path: seq<Line>, ds: seq<Line>, next: seq<Line>)
    requires doc == h + ((path + [Text("definitions:")] + ds) + next)
    requires k == |h| + |path + [Text("definitions:")] + ds|
    requires forall l | l in ds :: !IsTopLevel(l)
    requires next != []
    ensures 0 <= k < |doc| && doc[k] == next[0] && CurrentSection(doc[..k]) == Some("definitions:")
  {
    Regroup(h, path, [Text("definitions:")], ds, next);
    FollowsDefinitions(h + path, ds, next);
  }

  lemma TwoQueueBlocks(a: string, b: string)
    ensures AllQueueBlocks([a, b]) == QueueBlock(a) + QueueBlock(b)
  {
    assert [a, b][..1] == [a];
    assert [a][..0] == [];
    assert AllQueueBlocks([a]) == [] + QueueBlock(a);
    AppendEmpty(QueueBlock(a));
  }

  /** Whatever follows a `definitions:` section lies in it. */
  lemma FollowsDefinitions(before: seq<Line>, definitions: seq<Line>, after: seq<Line>)
    requires forall l | l in definitions :: !IsTopLevel(l)
    requires after != []
    ensures var doc := before + [Text("definitions:")] + definitions + after;
      var k := |before| + 1 + |definitions|;
      && doc[k] == after[0]
      && CurrentSection(doc[..k]) == Some("definitions:")
  {
    var top := before + [Text("definitions:")];
    var doc := top + definitions + after;
    assert doc[..|top| + |definitions|] == top + definitions;
    assert CurrentSection(top) == Some("definitions:");
    CurrentSectionAppend(top, definitions);
  }

  /**
   * The builder's document and the one with a single `definitions:` section
   * coincide exactly when there is one queue: with none the builder writes no
   * definitions, with more it writes them once per queue.
   */
  lemma QueueDocumentMatchesSingleDefinitions(storageAccountName: string, host: string, queues: seq<string>)
    ensures (QueueDocument(storageAccountName, host, queues)
             == SingleDefinitionsQueueDocument(storageAccountName, host, queues)) <==> |queues| == 1
  {
    if |queues| == 1 {
      OneQueueLayout(storageAccountName, host, queues[0]);
      assert queues == [queues[0]];
    } else {
      QueueDocumentLengths(storageAccountName, host, queues);
    }
  }

  lemma OneQueueLayout(storageAccountName: string, host: string, q: string)
    ensures QueueDocument(storageAccountName, host, [q]) == SingleDefinitionsQueueDocument(storageAccountName, host, [q])
  {
    assert [q][..0] == [];
    assert AllQueueBlocks([q]) == AllQueueBlocks([]) + QueueBlock(q);
    assert AllQueuePaths([q]) == AllQueuePaths([]) + QueuePath(q);
  }

  lemma QueueDocumentLengths(storageAccountName: string, host: string, queues: seq<string>)
    requires |queues| != 1
    ensures |QueueDocument(storageAccountName, host, queues)|
         != |SingleDefinitionsQueueDocument(storageAccountName, host, queues)|
  {
    var d := [Text("definitions:")] + QueueDefinitions();
    AllQueueBlocksLength(queues);
    NotOnce(|AllQueuePaths(queues)|, |queues|, |d|);
    assert |SingleDefinitionsQueueDocument(storageAccountName, host, queues)|
        == |QueueHeader(storageAccountName, host)| + (|AllQueuePaths(queues)| + |d|);
  }

  lemma {:induction false} AllQueueBlocksLength(queues: seq<string>)
    ensures |AllQueueBlocks(queues)|
         == |AllQueuePaths(queues)| + |queues| * |[Text("definitions:")] + QueueDefinitions()|
  {
    if queues != [] {
      var init, q := queues[..|queues| - 1], queues[|queues| - 1];
      var t := [Text("definitions:")] + QueueDefinitions();
      AllQueueBlocksLength(init);
      AllQueuePathsSnoc(queues);
      assert AllQueueBlocks(queues) == AllQueueBlocks(init) + QueueBlock(q);
      assert |QueueBlock(q)| == |QueuePath(q)| + |t|;
      LengthStep(|AllQueueBlocks(init)|, |AllQueuePaths(init)|, |QueuePath(q)|, |init|, |t|);
    }
  }
}
