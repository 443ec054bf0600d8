/**
 * Generic facts about sequences and sets, stated once so that proofs about
 * documents can use them without re-deriving them for concrete lines.
 */
module Sequences {
  /** One step of a loop over `s`: the prefix of the next prefix. */
  lemma PrefixStep<T>(s: seq<T>, i: int)
    requires 0 <= i < |s|
    ensures s[..i + 1][..i] == s[..i]
  {
  }

  lemma HeadTail<T>(s: seq<T>)
    requires |s| > 0
    ensures s == [s[0]] + s[1..]
  {
  }

  lemma WholePrefix<T>(s: seq<T>)
    ensures s[..|s|] == s
  {
  }

  lemma TripleOf<T>(x: T, y: T, z: T)
    ensures [x] + [y] + [z] == [x, y, z]
  {
  }

  lemma SetPairOf<T>(x: T, y: T)
    ensures {} + {x} + {y} == {x, y}
  {
  }

  lemma EmptyUnion<T>(a: set<T>, b: set<T>)
    ensures {} + a + b == a + b
  {
  }

  lemma SetOfConcat<T>(a: seq<T>, b: seq<T>)
    ensures (set x | x in a + b) == (set x | x in a) + (set x | x in b)
  {
  }

  lemma SetOfTriple<T>(x: T, y: T, z: T)
    ensures (set n | n in [x, y, z]) == {x, y, z}
  {
  }

  lemma AppendEmpty<T>(s: seq<T>)
    ensures s + [] == s && [] + s == s
  {
  }

  lemma PairOf<T>(x: T, y: T)
    ensures [x] + [y] == [x, y]
  {
  }

  lemma Regroup<T>(h: seq<T>, p: seq<T>, t: seq<T>, ds: seq<T>, b: seq<T>)
    ensures h + ((p + t + ds) + b) == (h + p) + t + ds + b
  {
  }

  /** One more block of length `d` adds `d` to the count of blocks. */
  lemma LengthStep(total: int, paths: int, path: int, n: int, d: int)
    requires total == paths + n * d
    ensures total + (path + d) == (paths + path) + (n + 1) * d
  {
  }

  lemma FourThenThree<T>(a: T, b: T, c: T, d: T, e: T, f: T, g: T)
    ensures [a, b, c, d] + [e, f, g] == [a, b, c, d, e, f, g]
  {
  }

  lemma ThreeWithGaps<T>(s: seq<T>, x: T, y: T, z: T)
    ensures s + [x] + [] + [y] + [] + [z] == s + [x, y, z]
  {
  }

  lemma SevenThenOne<T>(a: T, b: T, c: T, d: T, e: T, f: T, g: T, h: T)
    ensures [a, b, c, d, e, f, g] + [h] == [a, b, c, d, e, f, g, h]
  {
  }

  /** `n` blocks of a positive length `d` are as long as one only when `n` is one. */
  lemma NotOnce(p: int, n: int, d: int)
    requires n >= 0 && n != 1 && d > 0
    ensures p + n * d != p + d
  {
    if n > 1 {
      assert n * d >= 2 * d;
    }
  }

  lemma AssocFour<T>(a: seq<T>, b: seq<T>, c: seq<T>, d: seq<T>)
    ensures a + b + c + d == a + (b + c + d)
  {
  }

  lemma PairCovers<T>(x: T, y: T)
    ensures {x, y} + {x} + {y} == {x, y}
  {
  }

  lemma EmptySides<T>(a: set<T>, b: set<T>, c: set<T>)
    requires a == {} && c == {}
    ensures a + b + c == b
  {
  }

  /** A set that is empty or holds only `x` lies within any sequence holding `x`. */
  lemma AtMostOneIn<T>(a: set<T>, s: seq<T>, x: T)
    requires a == {} || a == {x}
    requires x in s
    ensures a <= set y | y in s
  {
  }

  lemma UnionSingleton<T>(a: set<T>, x: T)
    requires a == {} || a == {x}
    ensures a + {x} == {x}
  {
  }

  lemma UnionAbsorbs<T>(a: set<T>, b: set<T>)
    requires b <= a
    ensures a + b == a
  {
  }
}
