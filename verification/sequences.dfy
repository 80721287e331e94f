/** Prefix and substring tests on sequences, as Python's `startswith` and `in` do them on strings. */
module Sequences {

  predicate IsPrefix<T(==)>(p: seq<T>, s: seq<T>) {
    |p| <= |s| && s[..|p|] == p
  }

  /** Python's substring test `p in s`. */
  predicate IsInfix<T(==)>(p: seq<T>, s: seq<T>) {
    IsPrefix(p, s) || (s != [] && IsInfix(p, s[1..]))
  }

  /** The first element of a non-empty substring occurs in the sequence. */
  lemma {:induction false} InfixHead<T>(p: seq<T>, s: seq<T>)
    requires p != [] && IsInfix(p, s)
    ensures p[0] in s
  {
    if !IsPrefix(p, s) {
      InfixHead(p, s[1..]);
    }
  }

  /** A sequence is its prefix followed by the rest. */
  lemma PrefixSplit<T>(p: seq<T>, s: seq<T>)
    requires IsPrefix(p, s)
    ensures s == p + s[|p|..]
  {
  }

  /** Dropping a prefix of a concatenation leaves the rest. */
  lemma DropPrefix<T>(p: seq<T>, rest: seq<T>)
    ensures IsPrefix(p, p + rest) && (p + rest)[|p|..] == rest
  {
  }

  /** Regrouping four concatenated pieces whose last three make `x + y`. */
  lemma RegroupTail<T>(a: seq<T>, b: seq<T>, c: seq<T>, d: seq<T>, x: seq<T>, y: seq<T>)
    requires b + c + d == x + y
    ensures a + b + c + d == a + x + y
  {
    calc {
      a + b + c + d;
      a + (b + c + d);
      a + (x + y);
      a + x + y;
    }
  }

  /** Cutting the tail of a concatenation in two keeps the whole. */
  lemma CutTail<T>(a: seq<T>, b: seq<T>, c: nat)
    requires c <= |b|
    ensures a + b[..c] + b[c..] == a + b
  {
    assert b[..c] + b[c..] == b;
  }
}
