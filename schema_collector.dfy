/**
 * The schema collector of `Initialize`: for every table it samples at most
 * the first 100 rows and records each property name the first time it is
 * seen, with the type it had there. Later occurrences never overwrite.
 */
module SchemaCollector {
  import opened Sequences
  import opened Wrappers
  import opened EdmTypes
  import opened OrderedMaps

  /** A property observed on a row: its name and its storage type. */
  type Property = (string, EdmType)

  /** The properties of one sampled row, in enumeration order. */
  type Row = seq<Property>

  /** A table's inferred schema: property name to type, in discovery order. */
  type Schema = seq<Property>

  /** A listed table with the rows its query enumerates. */
  type SampledTable = (string, seq<Row>)

  /** Table name to schema, in listing order. */
  type Registry = seq<(string, Schema)>

  /** How many rows of each table are sampled (`Take(100)`). */
  const SampleSize: nat := 100

  function Min(a: nat, b: nat): nat { if a <= b then a else b }

  /** The rows the collector looks at. */
  function Sample(rows: seq<Row>): (s: seq<Row>)
    ensures |s| == Min(SampleSize, |rows|) && s == rows[..|s|]
  {
    rows[..Min(SampleSize, |rows|)]
  }

  /** One step of the inner loop: add the property unless its name is present. */
  function AddProperty(s: Schema, p: Property): Schema
  {
    if Lookup(s, p.0).Some? then s else s + [p]
  }

  /** Absorb a sequence of properties into a schema, first to last. */
  function Absorb(s: Schema, ps: seq<Property>): Schema
  {
    if ps == [] then s else AddProperty(Absorb(s, ps[..|ps| - 1]), ps[|ps| - 1])
  }

  /** Absorb the rows one after the other. */
  function FoldRows(s: Schema, rows: seq<Row>): Schema
  {
    if rows == [] then s else Absorb(FoldRows(s, rows[..|rows| - 1]), rows[|rows| - 1])
  }

  /** The schema the collector infers for a table from its enumerated rows. */
  function SampledSchema(rows: seq<Row>): Schema
  {
    FoldRows([], Sample(rows))
  }

  /** All properties of the rows, row by row: the order in which they are visited. */
  function Flatten(rows: seq<Row>): seq<Property>
  {
    if rows == [] then [] else Flatten(rows[..|rows| - 1]) + rows[|rows| - 1]
  }

  /** The position at which `name` first occurs in `ps`. */
  function FirstIndex(ps: seq<Property>, name: string): (k: nat)
    requires name in Keys(ps)
    ensures k < |ps| && ps[k].0 == name
    ensures forall j :: 0 <= j < k ==> ps[j].0 != name
  {
    if ps[0].0 == name then 0
    else
      assert name in Keys(ps[1..]) by {
        var k :| 0 <= k < |Keys(ps)| && Keys(ps)[k] == name;
        assert Keys(ps[1..])[k - 1] == name;
      }
      1 + FirstIndex(ps[1..], name)
  }

  /** The table names are pairwise distinct. */
  ghost predicate DistinctNames(tables: seq<SampledTable>)
  {
    forall i, j :: 0 <= i < j < |tables| ==> tables[i].0 != tables[j].0
  }

  /** A table whose name no earlier table has keeps the names distinct. */
  lemma DistinctNamesStep(tables: seq<SampledTable>, i: int)
    requires 0 <= i < |tables| && DistinctNames(tables[..i])
    requires forall k :: 0 <= k < i ==> tables[k].0 != tables[i].0
    ensures DistinctNames(tables[..i + 1])
  {
    var next := tables[..i + 1];
    forall a, b | 0 <= a < b < |next| ensures next[a].0 != next[b].0 {
      if b < i {
        assert next[a] == tables[..i][a] && next[b] == tables[..i][b];
      }
    }
  }

  /** A name `ContainsKey` does not find belongs to no table registered so far. */
  lemma UnseenName(registry: Registry, tables: seq<SampledTable>, i: int)
    requires 0 <= i < |tables| && |registry| == i
    requires forall k :: 0 <= k < i ==> registry[k].0 == tables[k].0
    requires Lookup(registry, tables[i].0).None?
    ensures forall k :: 0 <= k < i ==> tables[k].0 != tables[i].0
  {
    forall k | 0 <= k < i ensures tables[k].0 != tables[i].0 {
      assert Keys(registry)[k] == tables[k].0;
    }
  }

  /** A name `ContainsKey` finds belongs to an earlier table: the names repeat. */
  lemma RepeatedName(registry: Registry, tables: seq<SampledTable>, i: int)
    requires 0 <= i < |tables| && |registry| == i
    requires forall k :: 0 <= k < i ==> registry[k].0 == tables[k].0
    requires Lookup(registry, tables[i].0).Some?
    ensures !DistinctNames(tables)
  {
    var k :| 0 <= k < |registry| && registry[k] == (tables[i].0, Lookup(registry, tables[i].0).value);
    assert tables[k].0 == tables[i].0;
  }

  /** Why collection stops: `Dictionary.Add` throws on a repeated table name. */
  datatype Collected = Registered(registry: Registry) | DuplicateTable(name: string)

  // ---------------------------------------------------------------------
  // The schema only grows

  /** Absorbing properties keeps every entry already there, in place. */
  lemma {:induction false} AbsorbExtends(s: Schema, ps: seq<Property>)
    ensures s <= Absorb(s, ps)
  {
    if ps != [] {
      AbsorbExtends(s, ps[..|ps| - 1]);
    }
  }

  /** Folding more rows only appends to what the first rows gave. */
  lemma {:induction false} FoldRowsExtends(s: Schema, rows: seq<Row>, r: nat)
    requires r <= |rows|
    ensures FoldRows(s, rows[..r]) <= FoldRows(s, rows)
  {
    if r < |rows| {
      var init := rows[..|rows| - 1];
      assert init[..r] == rows[..r];
      FoldRowsExtends(s, init, r);
      AbsorbExtends(FoldRows(s, init), rows[|rows| - 1]);
    } else {
      assert rows[..r] == rows;
    }
  }

  /**
   * While the loop runs, the schema built from the first `r` sampled rows is
   * a prefix of the final one: no entry is ever overwritten or moved.
   */
  lemma SampledSchemaGrows(rows: seq<Row>, r: nat)
    requires r <= |Sample(rows)|
    ensures FoldRows([], Sample(rows)[..r]) <= SampledSchema(rows)
  {
    FoldRowsExtends([], Sample(rows), r);
  }

  // ---------------------------------------------------------------------
  // Rows fold to their flattened properties

  lemma {:induction false} AbsorbAppend(s: Schema, a: seq<Property>, b: seq<Property>)
    ensures Absorb(s, a + b) == Absorb(Absorb(s, a), b)
  {
    if b == [] {
      assert a + b == a;
    } else {
      assert (a + b)[..|a + b| - 1] == a + b[..|b| - 1];
      AbsorbAppend(s, a, b[..|b| - 1]);
    }
  }

  lemma {:induction false} FoldRowsIsAbsorb(s: Schema, rows: seq<Row>)
    ensures FoldRows(s, rows) == Absorb(s, Flatten(rows))
  {
    if rows != [] {
      FoldRowsIsAbsorb(s, rows[..|rows| - 1]);
      AbsorbAppend(s, Flatten(rows[..|rows| - 1]), rows[|rows| - 1]);
    }
  }

  /** The flattened order is row by row, then position within the row. */
  lemma {:induction false} FlattenAt(rows: seq<Row>, i: nat, j: nat)
    requires i < |rows| && j < |rows[i]|
    ensures |Flatten(rows[..i])| + j < |Flatten(rows)|
    ensures Flatten(rows)[|Flatten(rows[..i])| + j] == rows[i][j]
  {
    var n := |rows|;
    assert rows[..n - 1][..n - 1] == rows[..n - 1];
    if i == n - 1 {
      assert rows[..i] == rows[..n - 1];
    } else {
      assert rows[..n - 1][..i] == rows[..i];
      FlattenAt(rows[..n - 1], i, j);
    }
  }

  lemma {:induction false} FlattenNames(rows: seq<Row>, name: string)
    ensures name in Keys(Flatten(rows))
        <==> exists i, j :: 0 <= i < |rows| && 0 <= j < |rows[i]| && rows[i][j].0 == name
  {
    if rows != [] {
      var n := |rows|;
      var init := rows[..n - 1];
      FlattenNames(init, name);
      assert Keys(Flatten(rows)) == Keys(Flatten(init)) + Keys(rows[n - 1]);
      if exists i, j :: 0 <= i < |rows| && 0 <= j < |rows[i]| && rows[i][j].0 == name {
        var i, j :| 0 <= i < |rows| && 0 <= j < |rows[i]| && rows[i][j].0 == name;
        if i < n - 1 {
          assert init[i][j].0 == name;
        } else {
          assert Keys(rows[n - 1])[j] == name;
        }
      }
      if name in Keys(Flatten(rows)) {
        if name !in Keys(Flatten(init)) {
          var j :| 0 <= j < |rows[n - 1]| && Keys(rows[n - 1])[j] == name;
          assert rows[n - 1][j].0 == name;
        } else {
          var i, j :| 0 <= i < |init| && 0 <= j < |init[i]| && init[i][j].0 == name;
          assert rows[i][j].0 == name;
        }
      }
    }
  }

  // ---------------------------------------------------------------------
  // The fold from an empty schema

  lemma {:induction false} FirstIndexPrefix(ps: seq<Property>, p: Property, name: string)
    requires name in Keys(ps)
    ensures name in Keys(ps + [p]) && FirstIndex(ps + [p], name) == FirstIndex(ps, name)
  {
    var k := FirstIndex(ps, name);
    assert (ps + [p])[k].0 == name;
    assert Keys(ps + [p])[k] == name;
    var k' := FirstIndex(ps + [p], name);
    assert ps[k'].0 == name || k' == |ps|;
  }

  /**
   * Folding a visit order into an empty schema yields every name of that
   * order exactly once, each paired with the type of its first occurrence,
   * in the order of first occurrences.
   */
  lemma AbsorbFromEmpty(ps: seq<Property>)
    ensures DistinctKeys(Absorb([], ps))
    ensures forall name :: name in Keys(Absorb([], ps)) <==> name in Keys(ps)
    ensures forall m :: 0 <= m < |Absorb([], ps)| ==>
      Absorb([], ps)[m].0 in Keys(ps) && Absorb([], ps)[m] == ps[FirstIndex(ps, Absorb([], ps)[m].0)]
    ensures forall m, m' :: 0 <= m < m' < |Absorb([], ps)| ==>
      Absorb([], ps)[m].0 in Keys(ps) && Absorb([], ps)[m'].0 in Keys(ps) &&
      FirstIndex(ps, Absorb([], ps)[m].0) < FirstIndex(ps, Absorb([], ps)[m'].0)
  {
    AbsorbFirstSeen(ps);
  }

  /**
   * `s` holds every name of `ps` once, each with its first pair, in the
   * order of first occurrences.
   */
  ghost predicate FirstSeen(ps: seq<Property>, s: Schema)
  {
    && DistinctKeys(s)
    && (forall name :: name in Keys(s) <==> name in Keys(ps))
    && (forall m :: 0 <= m < |s| ==> s[m].0 in Keys(ps) && s[m] == ps[FirstIndex(ps, s[m].0)])
    && (forall m, m' :: 0 <= m < m' < |s| ==>
          s[m].0 in Keys(ps) && s[m'].0 in Keys(ps) && FirstIndex(ps, s[m].0) < FirstIndex(ps, s[m'].0))
  }

  lemma {:induction false} AbsorbFirstSeen(ps: seq<Property>)
    ensures FirstSeen(ps, Absorb([], ps))
  {
    if ps != [] {
      var init, p := ps[..|ps| - 1], ps[|ps| - 1];
      assert ps == init + [p];
      AbsorbFirstSeen(init);
      var s := Absorb([], init);
      if Lookup(s, p.0).Some? {
        KnownNameStep(init, p, s);
      } else {
        NewNameStep(init, p, s);
      }
    }
  }

  /** A name already in the schema leaves it as it is. */
  lemma KnownNameStep(ps: seq<Property>, p: Property, s: Schema)
    requires FirstSeen(ps, s) && Lookup(s, p.0).Some?
    ensures FirstSeen(ps + [p], s)
  {
    KeysSnoc(ps + [p]);
    assert (ps + [p])[..|ps|] == ps;
    FirstIndexesKept(ps, p);
  }

  /** Appending a pair moves no first occurrence. */
  lemma FirstIndexesKept(ps: seq<Property>, p: Property)
    ensures forall name | name in Keys(ps) :: name in Keys(ps + [p]) && FirstIndex(ps + [p], name) == FirstIndex(ps, name)
  {
    forall name | name in Keys(ps)
      ensures name in Keys(ps + [p]) && FirstIndex(ps + [p], name) == FirstIndex(ps, name)
    {
      FirstIndexPrefix(ps, p, name);
    }
  }

  /** A new name is appended, and its first occurrence is the last pair. */
  lemma NewNameStep(ps: seq<Property>, p: Property, s: Schema)
    requires FirstSeen(ps, s) && Lookup(s, p.0).None?
    ensures FirstSeen(ps + [p], s + [p])
  {
    NewNameKeys(ps, p, s);
    NewNamePairs(ps, p, s);
    NewNameOrder(ps, p, s);
  }

  lemma NewNameKeys(ps: seq<Property>, p: Property, s: Schema)
    requires FirstSeen(ps, s) && Lookup(s, p.0).None?
    ensures DistinctKeys(s + [p])
    ensures forall name :: name in Keys(s + [p]) <==> name in Keys(ps + [p])
  {
    KeysSnoc(ps + [p]);
    assert (ps + [p])[..|ps|] == ps;
    KeysSnoc(s + [p]);
    assert (s + [p])[..|s|] == s;
  }

  lemma NewNamePairs(ps: seq<Property>, p: Property, s: Schema)
    requires FirstSeen(ps, s) && Lookup(s, p.0).None?
    ensures forall m :: 0 <= m < |s + [p]| ==>
      (s + [p])[m].0 in Keys(ps + [p]) && (s + [p])[m] == (ps + [p])[FirstIndex(ps + [p], (s + [p])[m].0)]
  {
    var all, r := ps + [p], s + [p];
    FirstIndexesKept(ps, p);
    NewNameLast(ps, p, s);
    forall m | 0 <= m < |r| ensures r[m].0 in Keys(all) && r[m] == all[FirstIndex(all, r[m].0)] {
      if m < |s| {
        assert r[m] == s[m];
      }
    }
  }

  lemma NewNameOrder(ps: seq<Property>, p: Property, s: Schema)
    requires FirstSeen(ps, s) && Lookup(s, p.0).None?
    ensures forall m, m' :: 0 <= m < m' < |s + [p]| ==>
      (s + [p])[m].0 in Keys(ps + [p]) && (s + [p])[m'].0 in Keys(ps + [p]) &&
      FirstIndex(ps + [p], (s + [p])[m].0) < FirstIndex(ps + [p], (s + [p])[m'].0)
  {
    var all, r := ps + [p], s + [p];
    FirstIndexesKept(ps, p);
    NewNameLast(ps, p, s);
    forall m, m' | 0 <= m < m' < |r|
      ensures r[m].0 in Keys(all) && r[m'].0 in Keys(all) && FirstIndex(all, r[m].0) < FirstIndex(all, r[m'].0)
    {
      assert r[m] == s[m];
      if m' < |s| {
        assert r[m'] == s[m'];
      }
    }
  }

  /** The new name first occurs at the end. */
  lemma NewNameLast(ps: seq<Property>, p: Property, s: Schema)
    requires FirstSeen(ps, s) && Lookup(s, p.0).None?
    ensures p.0 !in Keys(ps) && p.0 in Keys(ps + [p]) && FirstIndex(ps + [p], p.0) == |ps|
  {
    KeysSnoc(ps + [p]);
    assert (ps + [p])[..|ps|] == ps;
  }

  // ---------------------------------------------------------------------
  // The properties of a sampled schema

  /**
   * The keys of a sampled schema are pairwise distinct, and they are exactly
   * the property names occurring in the first `min(100, |rows|)` rows.
   */
  lemma SampledSchemaKeys(rows: seq<Row>)
    ensures DistinctKeys(SampledSchema(rows))
    ensures forall name :: name in Keys(SampledSchema(rows)) <==>
      exists i, j :: 0 <= i < Min(SampleSize, |rows|) && 0 <= j < |rows[i]| && rows[i][j].0 == name
  {
    var sample := Sample(rows);
    FoldRowsIsAbsorb([], sample);
    AbsorbFromEmpty(Flatten(sample));
    forall name ensures name in Keys(SampledSchema(rows)) <==>
      exists i, j :: 0 <= i < Min(SampleSize, |rows|) && 0 <= j < |rows[i]| && rows[i][j].0 == name
    {
      FlattenNames(sample, name);
      if exists i, j :: 0 <= i < Min(SampleSize, |rows|) && 0 <= j < |rows[i]| && rows[i][j].0 == name {
        var i, j :| 0 <= i < Min(SampleSize, |rows|) && 0 <= j < |rows[i]| && rows[i][j].0 == name;
        assert sample[i][j].0 == name;
      }
    }
  }

  /**
   * First seen wins, in discovery order: with `visits` the sampled properties
   * row by row, every stored pair is the first occurrence of its name, and the
   * schema lists names in the order they were first met.
   */
  lemma SampledSchemaFirstSeen(rows: seq<Row>)
    ensures var visits := Flatten(Sample(rows));
      var s := SampledSchema(rows);
      && (forall m :: 0 <= m < |s| ==> s[m].0 in Keys(visits) && s[m] == visits[FirstIndex(visits, s[m].0)])
      && (forall m, m' :: 0 <= m < m' < |s| ==>
            s[m].0 in Keys(visits) && s[m'].0 in Keys(visits) &&
            FirstIndex(visits, s[m].0) < FirstIndex(visits, s[m'].0))
  {
    FoldRowsIsAbsorb([], Sample(rows));
    AbsorbFromEmpty(Flatten(Sample(rows)));
  }

  /** The type stored for a name is the type of that name's first occurrence. */
  lemma {:induction false} SampledSchemaLookup(rows: seq<Row>, name: string)
    requires name in Keys(Flatten(Sample(rows)))
    ensures var visits := Flatten(Sample(rows));
      Lookup(SampledSchema(rows), name) == Some(visits[FirstIndex(visits, name)].1)
  {
    var visits := Flatten(Sample(rows));
    var s := SampledSchema(rows);
    FoldRowsIsAbsorb([], Sample(rows));
    AbsorbFromEmpty(visits);
    var m :| 0 <= m < |s| && Keys(s)[m] == name;
    LookupAt(s, m);
  }

  /** Rows at index 100 and beyond have no effect on the schema. */
  lemma SampleIgnoresLaterRows(rows: seq<Row>, later: seq<Row>)
    requires |rows| >= SampleSize
    ensures SampledSchema(rows + later) == SampledSchema(rows)
  {
    assert (rows + later)[..SampleSize] == rows[..SampleSize];
  }

  /**
   * The example of a table whose first row has properties A, B and whose
   * second row has C and A again, now with another type: the schema is
   * A, B, C with A keeping its first type.
   */
  lemma DiscoveryOrderExample()
    ensures SampledSchema([[("A", Int32), ("B", String)], [("C", Double), ("A", String)]])
         == [("A", Int32), ("B", String), ("C", Double)]
  {
    var r0: Row := [("A", Int32), ("B", String)];
    var r1: Row := [("C", Double), ("A", String)];
    var rows := [r0, r1];
    assert Sample(rows) == rows;
    assert Absorb([], r0[..1]) == [("A", Int32)] by {
      assert r0[..1][..0] == [];
    }
    var s1 := Absorb([], r0);
    assert s1 == [("A", Int32), ("B", String)];
    assert FoldRows([], rows[..1]) == s1 by {
      assert rows[..1][..0] == [];
    }
    assert Absorb(s1, r1[..1]) == s1 + [("C", Double)] by {
      assert r1[..1][..0] == [];
    }
    var s2 := s1 + [("C", Double)];
    assert Lookup(s2, "A") == Some(Int32);
    assert Absorb(s1, r1) == s2;
    assert rows[..1] == [r0];
  }

  // ---------------------------------------------------------------------
  // The collector

  /**
   * The body of the loop at lines 545-553 for one table: start from an empty
   * schema, walk the first 100 rows and each row's properties, and add a
   * property only when `ContainsKey` says its name is new.
   */
  method InferSchema(rows: seq<Row>) returns (schema: Schema)
    ensures schema == SampledSchema(rows)
  {
    schema := [];
    var top := Min(SampleSize, |rows|);
    for r := 0 to top
      invariant schema == FoldRows([], rows[..r])
    {
      var row := rows[r];
      for c := 0 to |row|
        invariant schema == Absorb(FoldRows([], rows[..r]), row[..c])
      {
        var key, edmType := row[c].0, row[c].1;
        if Lookup(schema, key).None? {
          schema := schema + [(key, edmType)];
        }
        assert row[..c + 1][..c] == row[..c];
      }
      WholePrefix(row);
      assert rows[..r + 1][..r] == rows[..r];
    }
  }

  /**
   * Lines 541-553 of `Initialize`: register every listed table with an empty
   * schema, then walk its first 100 rows and their properties, adding each
   * name that is not yet present. A repeated table name makes the dictionary
   * throw, which ends the run.
   */
  method CollectSchemas(tables: seq<SampledTable>) returns (result: Collected)
    ensures result.DuplicateTable? <==> !DistinctNames(tables)
    ensures result.DuplicateTable? ==> exists i :: 0 <= i < |tables| && tables[i].0 == result.name
    ensures result.Registered? ==>
      && |result.registry| == |tables|
      && forall i :: 0 <= i < |tables| ==>
           result.registry[i] == (tables[i].0, SampledSchema(tables[i].1))
  {
    var registry: Registry := [];
    for i := 0 to |tables|
      invariant DistinctNames(tables[..i])
      invariant |registry| == i
      invariant forall k :: 0 <= k < i ==> registry[k] == (tables[k].0, SampledSchema(tables[k].1))
    {
      var name, rows := tables[i].0, tables[i].1;
      if Lookup(registry, name).Some? {
        RepeatedName(registry, tables, i);
        return DuplicateTable(name);
      }
      UnseenName(registry, tables, i);
      DistinctNamesStep(tables, i);
      var schema := InferSchema(rows);
      registry := registry + [(name, schema)];
    }
    WholePrefix(tables);
    return Registered(registry);
  }
}
