/**
 * Pieces both documents are written from: the preamble, operation heads,
 * responses, `$ref` body parameters and object definitions.
 */
module SwaggerFragments {
  import opened Sequences
  import opened Wrappers
  import opened DocumentLines
  import opened EdmTypes
  import opened Parameters

  const InfoVersion := "1.0.0"

  /** From `swagger: '2.0'` to the supported schemes; the media types follow. */
  function Preamble(infoTitle: string, infoDescription: string, host: string): seq<Line>
  {
    [Text("swagger: '2.0'"), Text("info:")]
    + Info(infoTitle, infoDescription)
    + [Text("host: " + host), Text("schemes:")]
    + [Text(" - https"), Text(" - http")]
  }

  function Info(infoTitle: string, infoDescription: string): seq<Line>
  {
    [ Text(" title: " + infoTitle),
      Text(" description: " + infoDescription),
      Text(" version: \"" + InfoVersion + "\"") ]
  }

  /** The top-level keys of the preamble. */
  lemma PreambleKeys(infoTitle: string, infoDescription: string, host: string)
    ensures Entries(Preamble(infoTitle, infoDescription, host), TopLevelKey)
         == ["swagger: '2.0'", "info:", "host: " + host, "schemes:"]
    ensures forall k :: k != TopLevelKey ==> Entries(Preamble(infoTitle, infoDescription, host), k) == []
    ensures Refs(Preamble(infoTitle, infoDescription, host)) == {}
    ensures forall l | l in Preamble(infoTitle, infoDescription, host) :: !l.PathHead?
  {
    var ls := Preamble(infoTitle, infoDescription, host);
    PreambleTopLevel(infoTitle, infoDescription, host);
    forall k | k != TopLevelKey ensures Entries(ls, k) == [] {
      NoEntries(ls, k);
    }
  }

  lemma PreambleTopLevel(infoTitle: string, infoDescription: string, host: string)
    ensures Entries(Preamble(infoTitle, infoDescription, host), TopLevelKey)
         == ["swagger: '2.0'", "info:", "host: " + host, "schemes:"]
  {
    var a, b, c, d := [Text("swagger: '2.0'"), Text("info:")], Info(infoTitle, infoDescription),
      [Text("host: " + host), Text("schemes:")], [Text(" - https"), Text(" - http")];
    assert Preamble(infoTitle, infoDescription, host) == a + b + c + d;
    EntriesAppend(a + b + c, d, TopLevelKey);
    EntriesAppend(a + b, c, TopLevelKey);
    EntriesAppend(a, b, TopLevelKey);
    TopLevelPair("swagger: '2.0'", "info:");
    assert ("host: " + host)[0] == 'h';
    TopLevelPair("host: " + host, "schemes:");
    InfoNested(infoTitle, infoDescription);
    NestedEntries(b, TopLevelKey);
    SchemesNested();
    NestedEntries(d, TopLevelKey);
  }

  /** Two unindented lines are two top-level keys. */
  lemma TopLevelPair(x: string, y: string)
    requires |x| > 0 && x[0] != ' ' && |y| > 0 && y[0] != ' '
    ensures Entries([Text(x), Text(y)], TopLevelKey) == [x, y]
  {
    EntriesOfTwo(Text(x), Text(y), TopLevelKey);
  }

  lemma InfoNested(infoTitle: string, infoDescription: string)
    ensures forall l | l in Info(infoTitle, infoDescription) :: Nested(l)
  {
    forall l | l in Info(infoTitle, infoDescription) ensures Nested(l) {
      assert LineText(l)[0] == ' ';
    }
  }

  lemma SchemesNested()
    ensures forall l | l in [Text(" - https"), Text(" - http")] :: Nested(l)
  {
    forall l | l in [Text(" - https"), Text(" - http")] ensures Nested(l) {
      assert LineText(l)[0] == ' ';
    }
  }

  /**
   * A document laid out as a head ending in `paths:`, path lines, then
   * `definitions:` and definition lines puts every path under `paths:` and
   * every definition under `definitions:`.
   */
  lemma SectionLayout(head: seq<Line>, paths: seq<Line>, definitions: seq<Line>)
    requires CurrentSection(head) == Some("paths:")
    requires forall l | l in head :: !l.PathHead? && !l.DefHead?
    requires forall l | l in paths :: InPaths(l)
    requires forall l | l in definitions :: InDefinitions(l)
    ensures var doc := head + paths + [Text("definitions:")] + definitions;
      forall i | 0 <= i < |doc| ::
        && (doc[i].PathHead? ==> CurrentSection(doc[..i]) == Some("paths:"))
        && (doc[i].DefHead? ==> CurrentSection(doc[..i]) == Some("definitions:"))
  {
    assert forall l | l in paths :: !IsTopLevel(l) && !l.DefHead?;
    SectionHeads(head, paths, definitions);
  }

  lemma SectionHeads(head: seq<Line>, paths: seq<Line>, definitions: seq<Line>)
    requires CurrentSection(head) == Some("paths:")
    requires forall l | l in head :: !l.PathHead? && !l.DefHead?
    requires forall l | l in paths :: !IsTopLevel(l) && !l.DefHead?
    requires forall l | l in definitions :: !IsTopLevel(l) && !l.PathHead?
    ensures var doc := head + paths + [Text("definitions:")] + definitions;
      forall i | 0 <= i < |doc| ::
        && (doc[i].PathHead? ==> CurrentSection(doc[..i]) == Some("paths:"))
        && (doc[i].DefHead? ==> CurrentSection(doc[..i]) == Some("definitions:"))
  {
    var top := head + paths + [Text("definitions:")];
    var doc := top + definitions;
    assert CurrentSection(top) == Some("definitions:");
    forall i | 0 <= i < |doc|
      ensures doc[i].PathHead? ==> CurrentSection(doc[..i]) == Some("paths:")
      ensures doc[i].DefHead? ==> CurrentSection(doc[..i]) == Some("definitions:")
    {
      if i < |head| {
        assert doc[i] == head[i];
        assert head[i] in head;
      } else if i < |head| + |paths| {
        var j := i - |head|;
        assert doc[i] == paths[j];
        assert paths[j] in paths;
        assert doc[..i] == head + paths[..j];
        CurrentSectionAppend(head, paths[..j]);
      } else if i > |top| - 1 {
        var j := i - |top|;
        assert doc[i] == definitions[j];
        assert definitions[j] in definitions;
        assert doc[..i] == top + definitions[..j];
        CurrentSectionAppend(top, definitions[..j]);
      }
    }
  }

  /** The definition entries of a document laid out as head, paths, `definitions:` and definitions. */
  lemma DefinitionsLast(h: seq<Line>, ps: seq<Line>, ds: seq<Line>, names: seq<string>)
    requires Entries(h, DefinitionEntry) == [] && Entries(ps, DefinitionEntry) == []
    requires Entries(ds, DefinitionEntry) == names
    ensures Entries(h + ps + [Text("definitions:")] + ds, DefinitionEntry) == names
  {
    LayoutEntries(h, ps, ds, DefinitionEntry);
  }

  /** The entries of a document laid out as head, paths, `definitions:` and definitions. */
  lemma LayoutEntries(head: seq<Line>, paths: seq<Line>, definitions: seq<Line>, k: EntryKind)
    ensures Entries(head + paths + [Text("definitions:")] + definitions, k)
         == Entries(head, k) + Entries(paths, k)
            + (if k == TopLevelKey then ["definitions:"] else []) + Entries(definitions, k)
  {
    EntriesAppend(head, paths, k);
    EntriesAppend(head + paths, [Text("definitions:")], k);
    EntriesAppend(head + paths + [Text("definitions:")], definitions, k);
    OneEntry(Text("definitions:"), k);
  }

  lemma LayoutRefs(head: seq<Line>, paths: seq<Line>, definitions: seq<Line>)
    ensures Refs(head + paths + [Text("definitions:")] + definitions) == Refs(head) + Refs(paths) + Refs(definitions)
  {
    RefsAppend(head, paths);
    RefsAppend(head + paths, [Text("definitions:")]);
    RefsAppend(head + paths + [Text("definitions:")], definitions);
  }

  /** The head of one operation of a path: its HTTP verb and its summary. */
  function OperationHead(verb: string, summary: string): seq<Line>
  {
    [Text("  " + verb + ":"), Text("   summary: " + summary)]
  }

  /** One entry of an operation's `responses:`; a schema is a `$ref` to a definition. */
  datatype Response = Response(code: string, description: string, schema: Option<string>)

  function ResponseLines(r: Response): seq<Line>
  {
    [Text("     " + r.code + ":"), Text("       description: " + r.description)]
    + (if r.schema.Some? then [Text("       schema:"), RefTo("         ", r.schema.value)] else [])
  }

  function ResponseList(rs: seq<Response>): seq<Line>
  {
    if rs == [] then [] else ResponseList(rs[..|rs| - 1]) + ResponseLines(rs[|rs| - 1])
  }

  /** `responses:` and its entries. */
  function Responses(rs: seq<Response>): seq<Line>
  {
    [Text("   responses:")] + ResponseList(rs)
  }

  /** The definitions the responses refer to. */
  function Schemas(rs: seq<Response>): (targets: set<string>)
    ensures forall t :: t in targets <==> exists i :: 0 <= i < |rs| && rs[i].schema == Some(t)
  {
    set i | 0 <= i < |rs| && rs[i].schema.Some? :: rs[i].schema.value
  }

  /**
   * The responses of an operation stay inside it, and refer exactly to the
   * schemas they name.
   */
  lemma {:induction false} ResponsesShape(rs: seq<Response>)
    ensures forall l | l in Responses(rs) :: Nested(l)
    ensures Refs(Responses(rs)) == Schemas(rs)
  {
    ResponseListShape(rs);
    RefsAppend([Text("   responses:")], ResponseList(rs));
  }

  lemma ResponseLinesShape(r: Response)
    ensures forall l | l in ResponseLines(r) :: Nested(l)
    ensures Refs(ResponseLines(r)) == if r.schema.Some? then {r.schema.value} else {}
  {
    forall l | l in ResponseLines(r) ensures Nested(l) {
      assert LineText(l)[0] == ' ';
    }
    if r.schema.Some? {
      assert ResponseLines(r)[3] in ResponseLines(r);
    }
  }

  lemma SchemasSnoc(rs: seq<Response>, r: Response)
    ensures Schemas(rs + [r]) == Schemas(rs) + (if r.schema.Some? then {r.schema.value} else {})
  {
    var all := rs + [r];
    forall t | t in Schemas(all) ensures t in Schemas(rs) || r.schema == Some(t) {
      var i :| 0 <= i < |all| && all[i].schema == Some(t);
      if i < |rs| {
        assert rs[i] == all[i];
      }
    }
    forall t | t in Schemas(rs) ensures t in Schemas(all) {
      var i :| 0 <= i < |rs| && rs[i].schema == Some(t);
      assert all[i] == rs[i];
    }
    if r.schema.Some? {
      assert all[|rs|] == r;
    }
  }

  lemma {:induction false} ResponseListShape(rs: seq<Response>)
    ensures forall l | l in ResponseList(rs) :: Nested(l)
    ensures Refs(ResponseList(rs)) == Schemas(rs)
  {
    if rs != [] {
      var init, r := rs[..|rs| - 1], rs[|rs| - 1];
      ResponseListShape(init);
      ResponseLinesShape(r);
      RefsAppend(ResponseList(init), ResponseLines(r));
      assert rs == init + [r];
      SchemasSnoc(init, r);
    }
  }

  /** The `body` parameter whose schema is a `$ref` to a definition. */
  function BodyReference(target: string): seq<Line>
  {
    [ ParamHead("body"),
      Text("      description: Body"),
      Text("      required: true"),
      Text("      in: body"),
      Text("      schema:"),
      RefTo("        ", target) ]
  }

  lemma BodyReferenceShape(target: string)
    ensures forall l | l in BodyReference(target) :: Nested(l)
    ensures Refs(BodyReference(target)) == {target}
  {
    forall l | l in BodyReference(target) ensures Nested(l) {
      assert LineText(l)[0] == ' ';
    }
    assert BodyReference(target)[5] in BodyReference(target);
  }

  /** Parameter entries stay inside their operation. */
  lemma {:induction false} ParamsNested(ps: seq<Param>)
    ensures forall l | l in ParamsLines(ps) :: Nested(l)
  {
    if ps != [] {
      ParamsNested(ps[..|ps| - 1]);
      forall l | l in ParamLines(ps[|ps| - 1]) ensures Nested(l) {
        assert LineText(l)[0] == ' ';
      }
    }
  }

  lemma TagLinesNested(tag: string)
    ensures forall l | l in TagLines(tag) :: Nested(l)
  {
    forall l | l in TagLines(tag) ensures Nested(l) {
      assert LineText(l)[0] == ' ';
    }
  }

  /** A tag and a parameter list stay inside their operation and refer to nothing. */
  lemma ParameterBlockNested(tag: string, ps: seq<Param>)
    ensures forall l | l in TagLines(tag) + ParamsLines(ps) :: Nested(l)
    ensures Refs(TagLines(tag) + ParamsLines(ps)) == {}
  {
    TagLinesNested(tag);
    ParamsNested(ps);
    ParameterBlockShape(tag, ps);
  }

  lemma OperationHeadNested(verb: string, summary: string)
    ensures forall l | l in OperationHead(verb, summary) :: Nested(l)
    ensures Refs(OperationHead(verb, summary)) == {}
  {
    forall l | l in OperationHead(verb, summary) ensures Nested(l) {
      assert LineText(l)[0] == ' ';
    }
  }

  // ---------------------------------------------------------------------
  // Definitions

  /** The head of an object definition, up to its `properties:`. */
  function ObjectHead(name: string): seq<Line>
  {
    [DefHead(name), Text("    type: object"), Text("    properties:")]
  }

  /** A property whose type is written out. */
  function PlainProperty(name: string, typ: string): seq<Line>
  {
    [PropHead(name), Text("        type: " + typ)]
  }

  /** A property of an entity: its JSON Schema type, and its format when the type has one. */
  function PropertyLines(name: string, t: EdmType): seq<Line>
  {
    PlainProperty(name, PropertyTypeName(t)) + FormatLines(PropertyFormat(t))
  }

  /** The `format` line, when there is a format. */
  function FormatLines(format: Option<string>): seq<Line>
  {
    if format.Some? then [Text("        format: " + format.value)] else []
  }

  /** A property whose value is a `$ref` to another definition. */
  function ReferenceProperty(name: string, target: string): seq<Line>
  {
    [PropHead(name), RefTo("        ", target)]
  }

  lemma ObjectHeadShape(name: string)
    ensures Entries(ObjectHead(name), DefinitionEntry) == [name]
    ensures forall k :: k != DefinitionEntry ==> Entries(ObjectHead(name), k) == []
    ensures Refs(ObjectHead(name)) == {}
    ensures forall l | l in ObjectHead(name) :: !IsTopLevel(l) && !l.PathHead?
  {
    var ls := ObjectHead(name);
    assert ls == [ls[0]] + ls[1..];
    forall l | l in ls ensures !IsTopLevel(l) {
      assert LineText(l)[0] == ' ';
    }
    forall k ensures Entries(ls, k) == Entries([ls[0]], k) + Entries(ls[1..], k) {
      EntriesAppend([ls[0]], ls[1..], k);
    }
    forall k ensures Entries(ls[1..], k) == [] {
      forall i | 0 <= i < |ls[1..]| ensures !IsEntry(ls[1..][i], k) {
        assert LineText(ls[1..][i])[0] == ' ';
      }
      NoEntries(ls[1..], k);
    }
    forall k ensures Entries([ls[0]], k) == if k == DefinitionEntry then [name] else [] {
      OneEntry(ls[0], k);
      assert LineText(ls[0])[0] == ' ';
    }
  }

  /**
   * A property's lines declare that one property, with no `$ref`, and hold no
   * top-level key, path or definition.
   */
  lemma PropertyLinesShape(name: string, t: EdmType)
    ensures Entries(PropertyLines(name, t), PropertyEntry) == [name]
    ensures forall k :: k != PropertyEntry ==> Entries(PropertyLines(name, t), k) == []
    ensures Refs(PropertyLines(name, t)) == {}
    ensures forall l | l in PropertyLines(name, t) :: !IsTopLevel(l) && !l.PathHead?
  {
    var ls := PropertyLines(name, t);
    SinglePropertyShape(ls, name);
  }

  lemma PlainPropertyShape(name: string, typ: string)
    ensures Entries(PlainProperty(name, typ), PropertyEntry) == [name]
    ensures forall k :: k != PropertyEntry ==> Entries(PlainProperty(name, typ), k) == []
    ensures Refs(PlainProperty(name, typ)) == {}
    ensures forall l | l in PlainProperty(name, typ) :: !IsTopLevel(l) && !l.PathHead?
  {
    SinglePropertyShape(PlainProperty(name, typ), name);
  }

  lemma ReferencePropertyShape(name: string, target: string)
    ensures Entries(ReferenceProperty(name, target), PropertyEntry) == [name]
    ensures forall k :: k != PropertyEntry ==> Entries(ReferenceProperty(name, target), k) == []
    ensures Refs(ReferenceProperty(name, target)) == {target}
    ensures forall l | l in ReferenceProperty(name, target) :: !IsTopLevel(l) && !l.PathHead?
  {
    var ls := ReferenceProperty(name, target);
    SinglePropertyShape([ls[0]], name);
    assert ls == [ls[0]] + [ls[1]];
    assert LineText(ls[1])[0] == ' ';
    forall k ensures Entries(ls, k) == Entries([ls[0]], k) + Entries([ls[1]], k) {
      EntriesAppend([ls[0]], [ls[1]], k);
      OneEntry(ls[1], k);
    }
    assert ls[1] in ls;
  }

  /** A property head followed by indented lines that are neither entries nor `$ref`s. */
  lemma SinglePropertyShape(ls: seq<Line>, name: string)
    requires |ls| >= 1 && ls[0] == PropHead(name)
    requires forall i :: 1 <= i < |ls| ==> ls[i].Text? && |ls[i].text| > 0 && ls[i].text[0] == ' '
    ensures Entries(ls, PropertyEntry) == [name]
    ensures forall k :: k != PropertyEntry ==> Entries(ls, k) == []
    ensures Refs(ls) == {}
    ensures forall l | l in ls :: !IsTopLevel(l) && !l.PathHead?
  {
    assert ls == [ls[0]] + ls[1..];
    forall l | l in ls ensures !IsTopLevel(l) {
      assert LineText(l)[0] == ' ';
    }
    forall k ensures Entries(ls, k) == Entries([ls[0]], k) + Entries(ls[1..], k) {
      EntriesAppend([ls[0]], ls[1..], k);
    }
    forall k ensures Entries(ls[1..], k) == [] {
      forall i | 0 <= i < |ls[1..]| ensures !IsEntry(ls[1..][i], k) {
        assert ls[1..][i] == ls[i + 1];
      }
      NoEntries(ls[1..], k);
    }
    forall k ensures Entries([ls[0]], k) == if k == PropertyEntry then [name] else [] {
      OneEntry(ls[0], k);
      assert LineText(ls[0])[0] == ' ';
    }
  }

  /** Rendering a property hides nothing but the difference between Guid and String. */
  lemma PropertyLinesDistinguishTypes(name: string, a: EdmType, b: EdmType)
    requires a != b
    ensures PropertyLines(name, a) == PropertyLines(name, b) <==> {a, b} == {Guid, String}
  {
    RenderedTypeLosesOnlyGuid(a, b);
    if PropertyLines(name, a) == PropertyLines(name, b) {
      PropertyTextsDetermine(name, PropertyTypeName(a), PropertyFormat(a), PropertyTypeName(b), PropertyFormat(b));
    }
  }

  /** The lines of a property give back its type name and its format. */
  lemma PropertyTextsDetermine(name: string, ta: string, fa: Option<string>, tb: string, fb: Option<string>)
    requires PlainProperty(name, ta) + FormatLines(fa) == PlainProperty(name, tb) + FormatLines(fb)
    ensures ta == tb && fa == fb
  {
    var ls := PlainProperty(name, ta) + FormatLines(fa);
    assert ls[1] == Text("        type: " + ta) && ls[1] == Text("        type: " + tb);
    assert ta == ("        type: " + ta)[14..];
    assert tb == ("        type: " + tb)[14..];
    if fa.Some? {
      assert ls[2] == Text("        format: " + fa.value);
      assert fb.Some? && ls[2] == Text("        format: " + fb.value);
      assert fa.value == ("        format: " + fa.value)[16..];
      assert fb.value == ("        format: " + fb.value)[16..];
    }
  }

  /** The definition fragments hold only lines a text reader tells apart from definition heads. */
  lemma ObjectHeadReads(name: string)
    requires PlainName(name)
    ensures forall l | l in ObjectHead(name) :: DefinitionSectionLine(l)
  {
  }

  lemma PlainPropertyReads(name: string, typ: string)
    ensures forall l | l in PlainProperty(name, typ) :: DefinitionSectionLine(l)
  {
    assert LineText(PropHead(name)) == "      " + name + ":";
  }

  lemma PropertyLinesReads(name: string, t: EdmType)
    ensures forall l | l in PropertyLines(name, t) :: DefinitionSectionLine(l)
  {
    PlainPropertyReads(name, PropertyTypeName(t));
  }

  lemma ReferencePropertyReads(name: string, target: string)
    ensures forall l | l in ReferenceProperty(name, target) :: DefinitionSectionLine(l)
  {
    assert LineText(PropHead(name)) == "      " + name + ":";
    assert LineText(RefTo("        ", target)) == "        " + "$ref: '#/definitions/" + target + "'";
  }

  // ---------------------------------------------------------------------
  // Sections

  /** A line that is neither a top-level key, a definition nor a property. */
  predicate InPaths(l: Line)
  {
    !IsTopLevel(l) && !l.DefHead? && !l.PropHead?
  }

  /** A path entry followed by operations: one path, and the operations' references. */
  lemma PathShape(path: string, operations: seq<Line>)
    requires forall l | l in operations :: Nested(l)
    ensures forall l | l in [PathHead(path)] + operations :: InPaths(l)
    ensures Entries([PathHead(path)] + operations, PathEntry) == [path]
    ensures Refs([PathHead(path)] + operations) == Refs(operations)
  {
    assert LineText(PathHead(path))[0] == ' ';
    NestedEntries(operations, PathEntry);
    EntriesAppend([PathHead(path)], operations, PathEntry);
    OneEntry(PathHead(path), PathEntry);
    RefsAppend([PathHead(path)], operations);
  }

  /** Two runs of operation lines side by side. */
  lemma NestedJoin(a: seq<Line>, b: seq<Line>)
    requires forall l | l in a :: Nested(l)
    requires forall l | l in b :: Nested(l)
    ensures forall l | l in a + b :: Nested(l)
    ensures Refs(a + b) == Refs(a) + Refs(b)
  {
    RefsAppend(a, b);
  }

  /** Two runs of paths side by side. */
  lemma PathsJoin(a: seq<Line>, b: seq<Line>, na: seq<string>, nb: seq<string>, ra: set<string>, rb: set<string>)
    requires forall l | l in a :: InPaths(l)
    requires forall l | l in b :: InPaths(l)
    requires Entries(a, PathEntry) == na && Entries(b, PathEntry) == nb
    requires Refs(a) == ra && Refs(b) == rb
    ensures forall l | l in a + b :: InPaths(l)
    ensures Entries(a + b, PathEntry) == na + nb
    ensures Refs(a + b) == ra + rb
  {
    EntriesAppend(a, b, PathEntry);
    RefsAppend(a, b);
  }

  /** A line of the `definitions:` section: no top-level key and no path. */
  predicate InDefinitions(l: Line)
  {
    !IsTopLevel(l) && !l.PathHead?
  }

  /**
   * Lines of the `definitions:` section that define `defs` and declare the
   * properties `props`, in that order, and refer to `refs`.
   */
  ghost predicate DefinitionBlock(ls: seq<Line>, defs: seq<string>, props: seq<string>, refs: set<string>)
  {
    && (forall l | l in ls :: InDefinitions(l))
    && Entries(ls, DefinitionEntry) == defs
    && Entries(ls, PropertyEntry) == props
    && Refs(ls) == refs
  }

  lemma DefinitionBlockHasNoPaths(ls: seq<Line>, defs: seq<string>, props: seq<string>, refs: set<string>)
    requires DefinitionBlock(ls, defs, props, refs)
    ensures Entries(ls, PathEntry) == []
    ensures Entries(ls, TopLevelKey) == []
  {
    NoEntriesIn(ls, PathEntry);
    NoEntriesIn(ls, TopLevelKey);
  }

  /** Lines inside the `paths:` section hold no key, definition or property. */
  lemma PathLinesEntries(ls: seq<Line>)
    requires forall l | l in ls :: InPaths(l)
    ensures Entries(ls, TopLevelKey) == []
    ensures Entries(ls, DefinitionEntry) == []
    ensures Entries(ls, PropertyEntry) == []
  {
    NoEntriesIn(ls, TopLevelKey);
    NoEntriesIn(ls, DefinitionEntry);
    NoEntriesIn(ls, PropertyEntry);
  }

  lemma DefinitionBlockAppend(a: seq<Line>, da: seq<string>, pa: seq<string>, ra: set<string>,
                              b: seq<Line>, db: seq<string>, pb: seq<string>, rb: set<string>)
    requires DefinitionBlock(a, da, pa, ra) && DefinitionBlock(b, db, pb, rb)
    ensures DefinitionBlock(a + b, da + db, pa + pb, ra + rb)
  {
    EntriesAppend(a, b, DefinitionEntry);
    EntriesAppend(a, b, PropertyEntry);
    RefsAppend(a, b);
  }

  lemma DefinitionBlockAppend3(a: seq<Line>, da: seq<string>, pa: seq<string>, ra: set<string>,
                               b: seq<Line>, db: seq<string>, pb: seq<string>, rb: set<string>,
                               c: seq<Line>, dc: seq<string>, pc: seq<string>, rc: set<string>)
    requires DefinitionBlock(a, da, pa, ra) && DefinitionBlock(b, db, pb, rb) && DefinitionBlock(c, dc, pc, rc)
    ensures DefinitionBlock(a + b + c, da + db + dc, pa + pb + pc, ra + rb + rc)
  {
    DefinitionBlockAppend(a, da, pa, ra, b, db, pb, rb);
    DefinitionBlockAppend(a + b, da + db, pa + pb, ra + rb, c, dc, pc, rc);
  }

  lemma ObjectHeadBlock(name: string)
    ensures DefinitionBlock(ObjectHead(name), [name], [], {})
  {
    ObjectHeadShape(name);
  }

  lemma PropertyBlock(name: string, t: EdmType)
    ensures DefinitionBlock(PropertyLines(name, t), [], [name], {})
  {
    PropertyLinesShape(name, t);
  }

  lemma PlainPropertyBlock(name: string, typ: string)
    ensures DefinitionBlock(PlainProperty(name, typ), [], [name], {})
  {
    PlainPropertyShape(name, typ);
  }

  lemma ReferencePropertyBlock(name: string, target: string)
    ensures DefinitionBlock(ReferenceProperty(name, target), [], [name], {target})
  {
    ReferencePropertyShape(name, target);
  }

  lemma SectionEntries(h: seq<Line>, ps: seq<Line>, ds: seq<Line>, k: EntryKind, names: seq<string>)
    requires k != TopLevelKey
    requires Entries(h, k) == [] && Entries(ps, k) == names && Entries(ds, k) == []
    ensures Entries(h + ps + [Text("definitions:")] + ds, k) == names
  {
    LayoutEntries(h, ps, ds, k);
  }
}
