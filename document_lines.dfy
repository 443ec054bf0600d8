/**
 * The lines a renderer appends to its `StringBuilder`. Each line carries a tag
 * saying what it is in the document (a parameter entry, a property entry, a
 * definition entry, a `$ref`, or other text); `LineText` spells out the exact
 * text the source appends for it.
 */
module DocumentLines {
  import opened Sequences
  import opened Wrappers

  datatype Line =
    | Text(text: string)
    | ParamHead(name: string)
    | PropHead(name: string)
    | DefHead(name: string)
    | RefTo(indent: string, target: string)
    | PathHead(path: string)

  /** The text of a line, without the line terminator `AppendLine` adds. */
  function LineText(l: Line): string
  {
    match l
    case Text(s) => s
    case ParamHead(n) => "    - name: " + n
    case PropHead(n) => "      " + n + ":"
    case DefHead(n) => "  " + n + ":"
    case RefTo(indent, target) => indent + "$ref: '#/definitions/" + target + "'"
    case PathHead(p) => " /" + p + ":"
  }

  /** The text of a whole document, line by line. */
  function Render(ls: seq<Line>): (r: seq<string>)
    ensures |r| == |ls| && forall i :: 0 <= i < |ls| ==> r[i] == LineText(ls[i])
  {
    seq(|ls|, i requires 0 <= i < |ls| => LineText(ls[i]))
  }

  // ---------------------------------------------------------------------
  // Reading a document back

  /** The kinds of entry whose names can be read back from the lines. */
  datatype EntryKind = ParameterEntry | PropertyEntry | DefinitionEntry | PathEntry | TopLevelKey

  /** A line that does not start with a space is a key of the top-level mapping. */
  predicate IsTopLevel(l: Line)
  {
    var s := LineText(l);
    |s| == 0 || s[0] != ' '
  }

  predicate IsEntry(l: Line, k: EntryKind)
  {
    match k
    case ParameterEntry => l.ParamHead?
    case PropertyEntry => l.PropHead?
    case DefinitionEntry => l.DefHead?
    case PathEntry => l.PathHead?
    case TopLevelKey => IsTopLevel(l)
  }

  function EntryName(l: Line, k: EntryKind): string
  {
    match k
    case ParameterEntry => if l.ParamHead? then l.name else ""
    case PropertyEntry => if l.PropHead? then l.name else ""
    case DefinitionEntry => if l.DefHead? then l.name else ""
    case PathEntry => if l.PathHead? then l.path else ""
    case TopLevelKey => LineText(l)
  }

  /** The names of the entries of kind `k`, in document order. */
  function Entries(ls: seq<Line>, k: EntryKind): seq<string>
  {
    if ls == [] then []
    else
      var last := ls[|ls| - 1];
      Entries(ls[..|ls| - 1], k) + (if IsEntry(last, k) then [EntryName(last, k)] else [])
  }

  /** The targets of all `$ref` lines. */
  function Refs(ls: seq<Line>): set<string>
  {
    set l | l in ls && l.RefTo? :: l.target
  }

  /** The names the entries of kind `k` define, as a set. */
  function EntrySet(ls: seq<Line>, k: EntryKind): set<string>
  {
    set n | n in Entries(ls, k)
  }

  /**
   * An indented line that opens no path, definition or property: a line of an
   * operation's body or of a property's body.
   */
  predicate Nested(l: Line)
  {
    !l.PathHead? && !l.DefHead? && !l.PropHead? && !IsTopLevel(l)
  }

  /** The top-level key the next line of a document would fall under. */
  function CurrentSection(ls: seq<Line>): Option<string>
  {
    if ls == [] then None
    else if IsTopLevel(ls[|ls| - 1]) then Some(LineText(ls[|ls| - 1]))
    else CurrentSection(ls[..|ls| - 1])
  }

  lemma {:induction false} EntriesAppend(a: seq<Line>, b: seq<Line>, k: EntryKind)
    ensures Entries(a + b, k) == Entries(a, k) + Entries(b, k)
  {
    if b == [] {
      assert a + b == a;
    } else {
      assert (a + b)[..|a + b| - 1] == a + b[..|b| - 1];
      EntriesAppend(a, b[..|b| - 1], k);
    }
  }

  lemma {:induction false} NoEntries(ls: seq<Line>, k: EntryKind)
    requires forall i :: 0 <= i < |ls| ==> !IsEntry(ls[i], k)
    ensures Entries(ls, k) == []
  {
    if ls != [] {
      NoEntries(ls[..|ls| - 1], k);
    }
  }

  lemma NoEntriesIn(ls: seq<Line>, k: EntryKind)
    requires forall l | l in ls :: !IsEntry(l, k)
    ensures Entries(ls, k) == []
  {
    forall i | 0 <= i < |ls| ensures !IsEntry(ls[i], k) {
      assert ls[i] in ls;
    }
    NoEntries(ls, k);
  }

  lemma NoRefs(ls: seq<Line>)
    requires forall l | l in ls :: !l.RefTo?
    ensures Refs(ls) == {}
  {
  }

  lemma NestedEntries(ls: seq<Line>, k: EntryKind)
    requires forall l | l in ls :: Nested(l)
    requires k != ParameterEntry
    ensures Entries(ls, k) == []
  {
    forall i | 0 <= i < |ls| ensures !IsEntry(ls[i], k) {
      assert ls[i] in ls;
    }
    NoEntries(ls, k);
  }

  /** Lines that hold no top-level key leave the section unchanged. */
  lemma {:induction false} CurrentSectionAppend(a: seq<Line>, b: seq<Line>)
    requires forall l | l in b :: !IsTopLevel(l)
    ensures CurrentSection(a + b) == CurrentSection(a)
  {
    if b == [] {
      assert a + b == a;
    } else {
      assert (a + b)[..|a + b| - 1] == a + b[..|b| - 1];
      assert b[|b| - 1] in b;
      CurrentSectionAppend(a, b[..|b| - 1]);
    }
  }

  lemma EntriesSnoc(ls: seq<Line>, l: Line, k: EntryKind)
    ensures Entries(ls + [l], k) == Entries(ls, k) + (if IsEntry(l, k) then [EntryName(l, k)] else [])
  {
    assert (ls + [l])[..|ls|] == ls;
  }

  lemma OneEntry(l: Line, k: EntryKind)
    ensures Entries([l], k) == if IsEntry(l, k) then [EntryName(l, k)] else []
  {
    assert [l][..0] == [];
  }

  lemma EntriesOfTwo(a: Line, b: Line, k: EntryKind)
    ensures Entries([a, b], k) == Entries([a], k) + Entries([b], k)
    ensures Entries([a], k) == if IsEntry(a, k) then [EntryName(a, k)] else []
    ensures Entries([b], k) == if IsEntry(b, k) then [EntryName(b, k)] else []
  {
    assert [a, b] == [a] + [b];
    EntriesAppend([a], [b], k);
    OneEntry(a, k);
    OneEntry(b, k);
  }

  lemma AppendAssoc(a: seq<Line>, b: seq<Line>, c: seq<Line>)
    ensures a + b + c == a + (b + c)
  {
  }

  lemma OneRef(indent: string, target: string)
    ensures Refs([RefTo(indent, target)]) == {target}
  {
    assert RefTo(indent, target) in [RefTo(indent, target)];
  }

  lemma RefsAppend(a: seq<Line>, b: seq<Line>)
    ensures Refs(a + b) == Refs(a) + Refs(b)
  {
    forall x | x in Refs(a + b) ensures x in Refs(a) + Refs(b) {
      var l :| l in a + b && l.RefTo? && l.target == x;
      assert l in a || l in b;
    }
    forall x | x in Refs(a) + Refs(b) ensures x in Refs(a + b) {
      if x in Refs(a) {
        var l :| l in a && l.RefTo? && l.target == x;
        assert l in a + b;
      } else {
        var l :| l in b && l.RefTo? && l.target == x;
        assert l in a + b;
      }
    }
  }

  lemma EntrySetAppend(a: seq<Line>, b: seq<Line>, k: EntryKind)
    ensures EntrySet(a + b, k) == EntrySet(a, k) + EntrySet(b, k)
  {
    EntriesAppend(a, b, k);
  }

  // ---------------------------------------------------------------------
  // Reading definition names from the text alone

  /**
   * In the text, a definition opens with a line indented by exactly two
   * spaces and ending in `:`; the name is what lies between.
   */
  predicate LooksLikeDefinitionHead(s: string)
  {
    |s| >= 3 && s[0] == ' ' && s[1] == ' ' && s[2] != ' ' && s[|s| - 1] == ':'
  }

  /** The definition names a reader of the rendered text would see, in order. */
  function TextDefinitions(ls: seq<Line>): seq<string>
  {
    if ls == [] then []
    else
      var s := LineText(ls[|ls| - 1]);
      TextDefinitions(ls[..|ls| - 1]) + (if LooksLikeDefinitionHead(s) then [s[2..|s| - 1]] else [])
  }

  /** A name that does not start with a space. */
  predicate PlainName(n: string)
  {
    n == [] || n[0] != ' '
  }

  /** A text indented by at least three spaces. */
  predicate Indented(s: string)
  {
    |s| >= 3 && s[0] == ' ' && s[1] == ' ' && s[2] == ' '
  }

  /**
   * A line that may stand in a `definitions:` section: a definition head
   * whose name is plain, or any other line indented by three spaces or more.
   */
  predicate DefinitionSectionLine(l: Line)
  {
    if l.DefHead? then PlainName(l.name) else Indented(LineText(l))
  }

  /** On such a line, the text reads as a definition head exactly when the tag says so, with the same name. */
  lemma DefinitionSectionLineReads(l: Line)
    requires DefinitionSectionLine(l)
    ensures LooksLikeDefinitionHead(LineText(l)) <==> l.DefHead?
    ensures l.DefHead? ==> LineText(l)[2..|LineText(l)| - 1] == l.name
  {
    if l.DefHead? {
      var s := LineText(l);
      assert s == "  " + l.name + ":";
      assert s[2..|s| - 1] == l.name;
    }
  }

  /** In a `definitions:` section, reading the text gives the tagged definition names. */
  lemma {:induction false} TextDefinitionsAgree(ls: seq<Line>)
    requires forall l | l in ls :: DefinitionSectionLine(l)
    ensures TextDefinitions(ls) == Entries(ls, DefinitionEntry)
  {
    if ls != [] {
      var last := ls[|ls| - 1];
      assert last in ls;
      DefinitionSectionLineReads(last);
      TextDefinitionsAgree(ls[..|ls| - 1]);
    }
  }

  // ---------------------------------------------------------------------
  // The StringBuilder

  /** The `StringBuilder` a document is rendered into, as its list of lines. */
  class LineBuffer {
    var lines: seq<Line>

    constructor ()
      ensures lines == []
    {
      lines := [];
    }

    /** `sb.AppendLine(text)`. */
    method AppendLine(l: Line)
      modifies this
      ensures lines == old(lines) + [l]
    {
      lines := lines + [l];
    }
  }

  /** `AppendLine` once per line, in order. */
  method AppendLines(sb: LineBuffer, ls: seq<Line>)
    modifies sb
    ensures sb.lines == old(sb.lines) + ls
  {
    for i := 0 to |ls|
      invariant sb.lines == old(sb.lines) + ls[..i]
    {
      sb.AppendLine(ls[i]);
      assert ls[..i + 1] == ls[..i] + [ls[i]];
    }
    WholePrefix(ls);
  }
}
