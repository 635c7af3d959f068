/**
 * `Array.prototype.unique` (script.js:137-141): `[...new Set(this)]`. A
 * JavaScript `Set` keeps its elements in insertion order and ignores an
 * element it already holds, so the result lists each distinct element once,
 * where it first occurs in the input.
 */
module UniqueArray {

  /** No element occurs twice. */
  predicate NoDuplicates<T(==)>(s: seq<T>)
  {
    forall i, j :: 0 <= i < j < |s| ==> s[i] != s[j]
  }

  /** The position of the first occurrence of `x` in `s`. */
  function FirstIndex<T(==)>(s: seq<T>, x: T): (k: nat)
    requires x in s
    ensures k < |s| && s[k] == x && x !in s[..k]
  {
    var init := s[..|s| - 1];
    if x in init then FirstIndex(init, x) else |s| - 1
  }

  /**
   * The elements of `s` inserted into a set one by one, read back in
   * insertion order: each distinct element once, nothing added.
   */
  function Unique<T(==)>(s: seq<T>): (r: seq<T>)
    ensures NoDuplicates(r)
    ensures forall i :: 0 <= i < |r| ==> r[i] in s
    ensures forall i :: 0 <= i < |s| ==> s[i] in r
    ensures |r| <= |s|
  {
    if s == [] then []
    else
      var seen := Unique(s[..|s| - 1]);
      var x := s[|s| - 1];
      if x in seen then seen else seen + [x]
  }

  /** The result keeps the order in which elements first occur in the input. */
  lemma {:induction false} UniqueKeepsFirstOccurrenceOrder<T>(s: seq<T>)
    ensures forall i, j :: 0 <= i < j < |Unique(s)| ==>
      FirstIndex(s, Unique(s)[i]) < FirstIndex(s, Unique(s)[j])
  {
    if s != [] {
      var init := s[..|s| - 1];
      var x := s[|s| - 1];
      UniqueKeepsFirstOccurrenceOrder(init);
      var r := Unique(s);
      var seen := Unique(init);
      forall y | y in init
        ensures FirstIndex(s, y) == FirstIndex(init, y)
      {
      }
      forall i, j | 0 <= i < j < |r|
        ensures FirstIndex(s, r[i]) < FirstIndex(s, r[j])
      {
        assert r[i] in seen;
        if j < |seen| {
          assert r[j] == seen[j];
        } else {
          assert r[j] == x && x !in init;
        }
      }
    }
  }

  /** Adding an element already seen changes nothing, as with `Set.prototype.add`. */
  lemma UniqueIgnoresRepeat<T>(s: seq<T>, x: T)
    requires x in s
    ensures Unique(s + [x]) == Unique(s)
  {
  }

  /** A sequence that already has no duplicates is its own `Unique`. */
  lemma {:induction false} UniqueOfDistinct<T>(s: seq<T>)
    requires NoDuplicates(s)
    ensures Unique(s) == s
  {
    if s != [] {
      var init := s[..|s| - 1];
      UniqueOfDistinct(init);
      assert s[|s| - 1] !in init;
      assert init + [s[|s| - 1]] == s;
    }
  }

  /** Deduplicating twice gives what deduplicating once does. */
  lemma UniqueIdempotent<T>(s: seq<T>)
    ensures Unique(Unique(s)) == Unique(s)
  {
    UniqueOfDistinct(Unique(s));
  }

  /** The call at script.js:131 and 141. */
  method UniqueOfArr() returns (r: seq<int>)
    ensures r == [1, 2, 3, 4, 5, 6]
  {
    var arr := [1, 2, 3, 4, 5, 6, 6, 6, 5, 5];
    var distinct := [1, 2, 3, 4, 5, 6];
    UniqueOfDistinct(distinct);
    UniqueIgnoresRepeat(distinct, 6);
    UniqueIgnoresRepeat(distinct + [6], 6);
    UniqueIgnoresRepeat(distinct + [6, 6], 5);
    UniqueIgnoresRepeat(distinct + [6, 6, 5], 5);
    assert distinct + [6] + [6] == distinct + [6, 6];
    assert distinct + [6, 6] + [5] == distinct + [6, 6, 5];
    assert distinct + [6, 6, 5] + [5] == arr;
    r := Unique(arr);
  }
}
