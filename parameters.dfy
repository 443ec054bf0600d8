/**
 * The query parameters every operation declares: the shared-access-signature
 * block (`AddCommonSasParamters`) and its table and queue extensions
 * (`AddTableParameters`, `AddQueueParameters`).
 */
module Parameters {
  import opened Sequences
  import opened Wrappers
  import opened DocumentLines

  /** One entry of an operation's `parameters:` list that has a plain type. */
  datatype Param = Param(
    name: string,
    description: string,
    required: bool,
    location: string,
    typ: string,
    default: Option<string>)

  /** The lines of one parameter entry: name, description, required, in, type, default. */
  function ParamLines(p: Param): seq<Line>
  {
    [ ParamHead(p.name),
      Text("      description: " + p.description),
      Text("      required: " + (if p.required then "true" else "false")),
      Text("      in: " + p.location),
      Text("      type: " + p.typ) ]
    + (if p.default.Some? then [Text("      default: " + p.default.value)] else [])
  }

  /** A parameter entry names exactly one parameter, and nothing else. */
  lemma ParamLinesShape(p: Param)
    ensures Entries(ParamLines(p), ParameterEntry) == [p.name]
    ensures forall k :: k != ParameterEntry ==> Entries(ParamLines(p), k) == []
    ensures Refs(ParamLines(p)) == {}
  {
    var ls := ParamLines(p);
    ParamLinesTexts(p);
    NoRefs(ls);
    HeadTail(ls);
    forall k | k != ParameterEntry ensures Entries(ls, k) == [] {
      NestedEntries(ls, k);
    }
    NoEntriesIn(ls[1..], ParameterEntry);
    EntriesAppend([ls[0]], ls[1..], ParameterEntry);
    OneEntry(ls[0], ParameterEntry);
  }

  /** Every line of a parameter entry is indented; only the first names the parameter. */
  lemma ParamLinesTexts(p: Param)
    ensures ParamLines(p)[0] == ParamHead(p.name)
    ensures forall l | l in ParamLines(p) :: Nested(l) && !l.RefTo?
    ensures forall l | l in ParamLines(p)[1..] :: l.Text?
  {
    forall l | l in ParamLines(p) ensures Nested(l) && !l.RefTo? {
      assert LineText(l)[0] == ' ';
    }
  }

  /** `AppendLine` once per line of a parameter entry. */
  method AppendParam(sb: LineBuffer, p: Param)
    modifies sb
    ensures sb.lines == old(sb.lines) + ParamLines(p)
  {
    sb.AppendLine(ParamHead(p.name));
    sb.AppendLine(Text("      description: " + p.description));
    sb.AppendLine(Text("      required: " + (if p.required then "true" else "false")));
    sb.AppendLine(Text("      in: " + p.location));
    sb.AppendLine(Text("      type: " + p.typ));
    if p.default.Some? {
      sb.AppendLine(Text("      default: " + p.default.value));
    }
  }

  // ---------------------------------------------------------------------
  // The shared-access-signature parameters

  const SignedVersion := Param("sv", "Signed Version", true, "query", "string", Some("'2015-02-21'"))
  const SignedStart := Param("st", "Signed Start", false, "query", "string", Some("'2000-01-01T00:00:00Z'"))
  const SignedExpiry := Param("se", "Signed Expiry", true, "query", "string", Some("'3000-01-01T00:00:00Z'"))
  const SignedIdentifier := Param("si", "Signed Identifier", false, "query", "string", None)
  const SignedIpRange := Param("sip", "Signed IP Address Range", false, "query", "string", None)
  const SignedProtocol := Param("spr", "Signed Protocol", false, "query", "string", None)
  const Signature := Param("sig", "Signature", true, "query", "string", None)

  /** `sp`, whose default is the permission string the caller passes. */
  function SignedPermissions(defaultSignedPermissions: string): Param
  {
    Param("sp", "Signed Permissions", true, "query", "string", Some("'" + defaultSignedPermissions + "'"))
  }

  /** The operation's tag, then the opening of its parameter list. */
  function TagLines(tag: string): seq<Line>
  {
    [Text("   tags:"), Text("    - " + tag), Text("   parameters:")]
  }

  /** The shared parameters, in the order they are declared. */
  function SasParameters(defaultSignedPermissions: string): seq<Param>
  {
    [ SignedVersion, SignedStart, SignedExpiry, SignedIdentifier, SignedIpRange,
      SignedProtocol, SignedPermissions(defaultSignedPermissions), Signature ]
  }

  /** The entries of a list of parameters, one after the other. */
  function ParamsLines(ps: seq<Param>): seq<Line>
  {
    if ps == [] then [] else ParamsLines(ps[..|ps| - 1]) + ParamLines(ps[|ps| - 1])
  }

  /**
   * Append the entries of consecutive parameters, each as `AppendParam` does;
   * the source writes these runs out literally, one `AppendLine` per line.
   */
  method AppendParams(sb: LineBuffer, ps: seq<Param>)
    modifies sb
    ensures sb.lines == old(sb.lines) + ParamsLines(ps)
  {
    for i := 0 to |ps|
      invariant sb.lines == old(sb.lines) + ParamsLines(ps[..i])
    {
      AppendParam(sb, ps[i]);
      PrefixStep(ps, i);
    }
    WholePrefix(ps);
  }

  /** What `AddCommonSasParamters(tag, sb, perm)` appends. */
  function SasParameterLines(tag: string, defaultSignedPermissions: string): seq<Line>
  {
    TagLines(tag) + ParamsLines(SasParameters(defaultSignedPermissions))
  }

  method AddCommonSasParameters(tag: string, sb: LineBuffer, defaultSignedPermissions: string)
    modifies sb
    ensures sb.lines == old(sb.lines) + SasParameterLines(tag, defaultSignedPermissions)
  {
    sb.AppendLine(Text("   tags:"));
    sb.AppendLine(Text("    - " + tag));
    sb.AppendLine(Text("   parameters:"));
    AppendParams(sb, SasParameters(defaultSignedPermissions));
  }

  // ---------------------------------------------------------------------
  // Table and queue parameters

  /** `tn`, whose default is the table's own name. */
  function TableNameParam(tableName: string): Param
  {
    Param("tn", "Table Name", true, "query", "string", Some(tableName))
  }

  const StartPartitionKey := Param("spk", "Start Partition Key", false, "query", "string", None)
  const EndPartitionKey := Param("epk", "End Partition Key", false, "query", "string", None)
  const StartRowKey := Param("srk", "Start Row Key", false, "query", "string", None)
  const EndRowKey := Param("erk", "End Row Key", false, "query", "string", None)

  /** The permissions a table operation's signature defaults to. */
  const TablePermissions := "raud"

  /** The parameters a table operation adds after the shared ones. */
  function TableNavigationParameters(tableName: string): seq<Param>
  {
    [TableNameParam(tableName), StartPartitionKey, EndPartitionKey, StartRowKey, EndRowKey]
  }

  /** What `AddTableParameters(tableName, sb)` appends. */
  function TableParameterLines(tableName: string): seq<Line>
  {
    SasParameterLines(tableName, TablePermissions) + ParamsLines(TableNavigationParameters(tableName))
  }

  method AddTableParameters(tableName: string, sb: LineBuffer)
    modifies sb
    ensures sb.lines == old(sb.lines) + TableParameterLines(tableName)
  {
    AddCommonSasParameters(tableName, sb, TablePermissions);
    AppendParams(sb, TableNavigationParameters(tableName));
  }

  const Timeout := Param("timeout", "Timeout", false, "query", "integer", Some("30"))

  /** The permissions a queue operation's signature defaults to. */
  const QueuePermissions := "raup"

  /** What `AddQueueParameters(queueName, sb)` appends. */
  function QueueParameterLines(queueName: string): seq<Line>
  {
    SasParameterLines(queueName, QueuePermissions) + ParamsLines([Timeout])
  }

  method AddQueueParameters(queueName: string, sb: LineBuffer)
    modifies sb
    ensures sb.lines == old(sb.lines) + QueueParameterLines(queueName)
  {
    AddCommonSasParameters(queueName, sb, QueuePermissions);
    AppendParams(sb, [Timeout]);
  }

  // ---------------------------------------------------------------------
  // What the blocks declare

  lemma TagLinesShape(tag: string)
    ensures forall k :: Entries(TagLines(tag), k) == []
    ensures Refs(TagLines(tag)) == {}
  {
    forall k ensures Entries(TagLines(tag), k) == [] {
      NoEntries(TagLines(tag), k);
    }
  }

  /** The entries of a parameter list name its parameters in order, and nothing else. */
  lemma {:induction false} ParamsLinesShape(ps: seq<Param>)
    ensures Entries(ParamsLines(ps), ParameterEntry) == Names(ps)
    ensures forall k :: k != ParameterEntry ==> Entries(ParamsLines(ps), k) == []
    ensures Refs(ParamsLines(ps)) == {}
  {
    if ps != [] {
      var init, p := ps[..|ps| - 1], ps[|ps| - 1];
      ParamsLinesShape(init);
      ParamLinesShape(p);
      forall k ensures Entries(ParamsLines(ps), k) == Entries(ParamsLines(init), k) + Entries(ParamLines(p), k) {
        EntriesAppend(ParamsLines(init), ParamLines(p), k);
      }
      RefsAppend(ParamsLines(init), ParamLines(p));
      assert Names(ps) == Names(init) + [p.name];
    }
  }

  lemma {:induction false} ParamsLinesAppend(a: seq<Param>, b: seq<Param>)
    ensures ParamsLines(a + b) == ParamsLines(a) + ParamsLines(b)
  {
    if b == [] {
      assert a + b == a;
    } else {
      assert (a + b)[..|a + b| - 1] == a + b[..|b| - 1];
      ParamsLinesAppend(a, b[..|b| - 1]);
    }
  }

  /**
   * A block opened by `TagLines` declares exactly the given parameters, in
   * order, and nothing else: no property, definition, top-level key or `$ref`.
   */
  lemma ParameterBlockShape(tag: string, ps: seq<Param>)
    ensures Entries(TagLines(tag) + ParamsLines(ps), ParameterEntry) == Names(ps)
    ensures forall k :: k != ParameterEntry ==> Entries(TagLines(tag) + ParamsLines(ps), k) == []
    ensures Refs(TagLines(tag) + ParamsLines(ps)) == {}
  {
    TagLinesShape(tag);
    ParamsLinesShape(ps);
    forall k ensures Entries(TagLines(tag) + ParamsLines(ps), k) == Entries(TagLines(tag), k) + Entries(ParamsLines(ps), k) {
      EntriesAppend(TagLines(tag), ParamsLines(ps), k);
    }
    RefsAppend(TagLines(tag), ParamsLines(ps));
  }

  /**
   * `AddCommonSasParamters` declares sv, st, se, si, sip, spr, sp, sig in that
   * order, and the entry of `sp` defaults to the permissions passed in.
   */
  lemma SasParameterOrder(tag: string, defaultSignedPermissions: string)
    ensures Entries(SasParameterLines(tag, defaultSignedPermissions), ParameterEntry)
         == ["sv", "st", "se", "si", "sip", "spr", "sp", "sig"]
    ensures var sp := ParamLines(SasParameters(defaultSignedPermissions)[6]);
      |sp| == 6 && sp[0] == ParamHead("sp") && sp[5] == Text("      default: '" + defaultSignedPermissions + "'")
  {
    ParameterBlockShape(tag, SasParameters(defaultSignedPermissions));
    var sp := SignedPermissions(defaultSignedPermissions);
    assert SasParameters(defaultSignedPermissions)[6] == sp;
    assert sp.default.Some? && sp.required;
    assert "      default: " + ("'" + defaultSignedPermissions + "'")
        == "      default: '" + defaultSignedPermissions + "'";
  }

  /**
   * A table operation's parameters: the shared block with `sp` defaulting to
   * `raud`, then tn (defaulting to the table name), spk, epk, srk, erk.
   */
  lemma TableParameterOrder(tableName: string)
    ensures var ps := SasParameters(TablePermissions) + TableNavigationParameters(tableName);
      && TableParameterLines(tableName) == TagLines(tableName) + ParamsLines(ps)
      && Entries(TableParameterLines(tableName), ParameterEntry)
         == ["sv", "st", "se", "si", "sip", "spr", "sp", "sig", "tn", "spk", "epk", "srk", "erk"]
      && ps[6].default == Some("'raud'")
      && ps[8].default == Some(tableName)
  {
    var ps := SasParameters(TablePermissions) + TableNavigationParameters(tableName);
    ParamsLinesAppend(SasParameters(TablePermissions), TableNavigationParameters(tableName));
    ParameterBlockShape(tableName, ps);
    assert "'" + TablePermissions + "'" == "'raud'";
  }

  /**
   * A queue operation's parameters: the shared block with `sp` defaulting to
   * `raup`, then timeout.
   */
  lemma QueueParameterOrder(queueName: string)
    ensures var ps := SasParameters(QueuePermissions) + [Timeout];
      && QueueParameterLines(queueName) == TagLines(queueName) + ParamsLines(ps)
      && Entries(QueueParameterLines(queueName), ParameterEntry)
         == ["sv", "st", "se", "si", "sip", "spr", "sp", "sig", "timeout"]
      && ps[6].default == Some("'raup'")
  {
    var ps := SasParameters(QueuePermissions) + [Timeout];
    ParamsLinesAppend(SasParameters(QueuePermissions), [Timeout]);
    ParameterBlockShape(queueName, ps);
    assert "'" + QueuePermissions + "'" == "'raup'";
  }

  /** The names of a list of parameters. */
  function Names(ps: seq<Param>): (ns: seq<string>)
    ensures |ns| == |ps| && forall i :: 0 <= i < |ps| ==> ns[i] == ps[i].name
  {
    seq(|ps|, i requires 0 <= i < |ps| => ps[i].name)
  }
}
