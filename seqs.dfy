/** Sequence helpers: membership sets and Python's `list(set(xs))`. */
module Seqs {

  function ToSet<T>(s: seq<T>): set<T> {
    set x | x in s
  }

  predicate NoDups<T(==)>(s: seq<T>) {
    forall i, j :: 0 <= i < j < |s| ==> s[i] != s[j]
  }

  /**
   * The distinct elements of `s`, each at the position of its first
   * occurrence.  Used both for the keys of an insertion-ordered dict and
   * for `list(set(xs))`, whose order Python leaves unspecified.
   */
  function Dedup<T(==)>(s: seq<T>): (r: seq<T>)
    ensures ToSet(r) == ToSet(s)
    ensures NoDups(r)
    decreases |s|
  {
    if s == [] then []
    else
      var p := Dedup(s[..|s| - 1]);
      var x := s[|s| - 1];
      assert ToSet(s) == ToSet(s[..|s| - 1]) + {x} by {
        assert s == s[..|s| - 1] + [x];
      }
      if x in p then p else p + [x]
  }

  /** Dedup keeps the first-occurrence order: an element already seen stays where it was. */
  lemma {:induction false} DedupExtend<T>(s: seq<T>, x: T)
    ensures Dedup(s + [x]) == if x in s then Dedup(s) else Dedup(s) + [x]
  {
    assert (s + [x])[..|s + [x]| - 1] == s;
    assert x in Dedup(s) <==> x in ToSet(Dedup(s));
  }

  /** Concatenation regroups freely; stated once so callers need not reason about elements. */
  lemma ConcatAssoc<T>(a: seq<T>, b: seq<T>, c: seq<T>)
    ensures a + b + c == a + (b + c)
  {
  }
}
