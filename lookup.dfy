/**
 * Queries over append-ordered collections. A collection is a sequence in
 * insertion order, which is also creation order: `findOne` returns the first
 * match, and a query sorted by `createdAt: -1` returns the last match first.
 */
module Lookup {
  import opened Wrappers

  /** The position of the first element satisfying `p` (`findOne` in natural order). */
  function FirstIndex<T>(s: seq<T>, p: T -> bool): (r: Option<nat>)
    ensures r.Some? ==> r.value < |s| && p(s[r.value])
    ensures r.Some? ==> forall j :: 0 <= j < r.value ==> !p(s[j])
    ensures r.None? ==> forall j :: 0 <= j < |s| ==> !p(s[j])
  {
    if |s| == 0 then None
    else if p(s[0]) then Some(0)
    else
      match FirstIndex(s[1..], p)
      case None => None
      case Some(k) => Some(k + 1)
  }

  /** The position of the most recently added element satisfying `p`. */
  function LastIndex<T>(s: seq<T>, p: T -> bool): (r: Option<nat>)
    ensures r.Some? ==> r.value < |s| && p(s[r.value])
    ensures r.Some? ==> forall j :: r.value < j < |s| ==> !p(s[j])
    ensures r.None? ==> forall j :: 0 <= j < |s| ==> !p(s[j])
  {
    if |s| == 0 then None
    else if p(s[|s| - 1]) then Some(|s| - 1)
    else LastIndex(s[..|s| - 1], p)
  }

  /** Appending an element changes the newest match only when the new element matches. */
  lemma LastIndexAppend<T>(s: seq<T>, x: T, p: T -> bool)
    ensures LastIndex(s + [x], p) == if p(x) then Some(|s|) else LastIndex(s, p)
  {
    assert (s + [x])[..|s|] == s;
  }

  /** A match already present keeps the first match where it was when elements are appended. */
  lemma {:induction false} FirstIndexAppend<T>(s: seq<T>, t: seq<T>, p: T -> bool)
    requires FirstIndex(s, p).Some?
    ensures FirstIndex(s + t, p) == FirstIndex(s, p)
  {
    if !p(s[0]) {
      assert (s + t)[1..] == s[1..] + t;
      FirstIndexAppend(s[1..], t, p);
    }
  }

  /** With no earlier match, the first match of `s + [x]` is `x` exactly when `x` matches. */
  lemma FirstIndexAppendFresh<T>(s: seq<T>, x: T, p: T -> bool)
    requires FirstIndex(s, p).None?
    ensures FirstIndex(s + [x], p) == if p(x) then Some(|s|) else None
  {
    var r := FirstIndex(s + [x], p);
    assert (s + [x])[|s|] == x;
    if r.Some? {
      assert r.value == |s|;
    }
  }
}
