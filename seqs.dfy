/**
 * Row selection over in-memory tables: `where(...)->get()` is a filter that
 * keeps table order, `->first()` the earliest match.
 */
module Seqs {
  import opened Wrappers

  function Filter<T>(s: seq<T>, p: T -> bool): (r: seq<T>)
    ensures |r| <= |s|
    ensures forall i :: 0 <= i < |r| ==> p(r[i]) && r[i] in s
  {
    if s == [] then [] else if p(s[0]) then [s[0]] + Filter(s[1..], p) else Filter(s[1..], p)
  }

  /** An element is kept exactly when it is in the table and satisfies the condition. */
  lemma {:induction false} FilterMembership<T>(s: seq<T>, p: T -> bool, x: T)
    ensures x in Filter(s, p) <==> x in s && p(x)
  {
    if s != [] {
      FilterMembership(s[1..], p, x);
      assert s == [s[0]] + s[1..];
    }
  }

  /** Filtering twice with the same condition changes nothing the second time. */
  lemma {:induction false} FilterIdempotent<T>(s: seq<T>, p: T -> bool)
    ensures Filter(Filter(s, p), p) == Filter(s, p)
  {
    if s != [] {
      FilterIdempotent(s[1..], p);
    }
  }

  /** A condition every row satisfies keeps the whole table. */
  lemma {:induction false} FilterAll<T>(s: seq<T>, p: T -> bool)
    requires forall i :: 0 <= i < |s| ==> p(s[i])
    ensures Filter(s, p) == s
  {
    if s != [] {
      FilterAll(s[1..], p);
    }
  }

  /** The index of the first row that satisfies `p`. */
  function FirstIndex<T>(s: seq<T>, p: T -> bool): (r: Option<nat>)
    ensures r.Some? ==> r.value < |s| && p(s[r.value])
    ensures r.Some? ==> forall j :: 0 <= j < r.value ==> !p(s[j])
    ensures r.None? ==> forall j :: 0 <= j < |s| ==> !p(s[j])
  {
    if s == [] then None
    else if p(s[0]) then Some(0)
    else match FirstIndex(s[1..], p)
         case None => None
         case Some(k) => Some(k + 1)
  }

  /** `->first()`: the first row that satisfies `p`, if any. */
  function First<T>(s: seq<T>, p: T -> bool): (r: Option<T>)
    ensures r.Some? <==> exists i :: 0 <= i < |s| && p(s[i])
    ensures r.Some? ==> r.value in s && p(r.value)
  {
    match FirstIndex(s, p)
    case None => None
    case Some(k) => Some(s[k])
  }

  /** A filter keeps nothing exactly when no row matches, and the first row it keeps is the first match. */
  lemma {:induction false} FilterHead<T>(s: seq<T>, p: T -> bool)
    ensures FirstIndex(s, p).None? <==> Filter(s, p) == []
    ensures FirstIndex(s, p).Some? ==> Filter(s, p)[0] == s[FirstIndex(s, p).value]
  {
    if s != [] && !p(s[0]) {
      FilterHead(s[1..], p);
    }
  }

  /** Replacing a row that does not match by another that does not match leaves the first match where it was. */
  lemma {:induction false} FirstIndexUnaffected<T>(s: seq<T>, p: T -> bool, k: nat, v: T)
    requires k < |s| && !p(s[k]) && !p(v)
    ensures FirstIndex(s[k := v], p) == FirstIndex(s, p)
  {
    if k > 0 {
      FirstIndexUnaffected(s[1..], p, k - 1, v);
      assert s[k := v][1..] == s[1..][k - 1 := v];
    }
  }

  function Count<T>(s: seq<T>, p: T -> bool): nat {
    |Filter(s, p)|
  }

  /** Replacing a row by one on the same side of the condition keeps the count. */
  lemma {:induction false} CountUpdate<T>(s: seq<T>, p: T -> bool, k: nat, v: T)
    requires k < |s| && p(v) == p(s[k])
    ensures Count(s[k := v], p) == Count(s, p)
  {
    if k > 0 {
      CountUpdate(s[1..], p, k - 1, v);
      assert s[k := v][1..] == s[1..][k - 1 := v];
    } else {
      assert s[k := v][1..] == s[1..];
    }
  }
}
