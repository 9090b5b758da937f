/** Chains as sequences of identities, and arrays overwritten by a copy. */
module Sequences {

  function Without(s: seq<nat>, x: nat): seq<nat> {
    if s == [] then [] else if s[0] == x then s[1..] else [s[0]] + Without(s[1..], x)
  }

  ghost predicate Distinct(s: seq<nat>) {
    forall i, j :: 0 <= i < j < |s| ==> s[i] != s[j]
  }

  /** Taking out one element: the rest stays, in its order. */
  lemma {:induction false} WithoutIs(s: seq<nat>, x: nat)
    requires Distinct(s)
    ensures Distinct(Without(s, x)) && forall y :: y in Without(s, x) <==> y in s && y != x
    ensures |Without(s, x)| == if x in s then |s| - 1 else |s|
    ensures s != [] && s[0] == x ==> Without(s, x) == s[1..]
    ensures s != [] && s[0] != x ==> Without(s, x) != [] && Without(s, x)[0] == s[0]
  {
    if s != [] {
      assert s == [s[0]] + s[1..];
      assert forall y :: y in s <==> y == s[0] || y in s[1..];
      assert s[0] !in s[1..];
      if s[0] != x {
        WithoutIs(s[1..], x);
      }
    }
  }

  lemma {:induction false} WithoutFewer(s: seq<nat>, x: nat)
    ensures |Without(s, x)| <= |s| && (forall y :: y in Without(s, x) ==> y in s)
  {
    if s != [] && s[0] != x {
      WithoutFewer(s[1..], x);
    }
  }

  /** memcpy of xs to position at. */
  function Overwritten<T>(s: seq<T>, at: nat, xs: seq<T>): (t: seq<T>)
    requires at + |xs| <= |s|
    ensures |t| == |s|
  {
    s[..at] + xs + s[at + |xs|..]
  }

  lemma OverwrittenNext<T>(s: seq<T>, at: nat, xs: seq<T>, i: nat)
    requires at + |xs| <= |s| && i < |xs|
    ensures Overwritten(s, at, xs[..i])[at + i := xs[i]] == Overwritten(s, at, xs[..i + 1])
  {
  }

  lemma OverwrittenAt<T>(s: seq<T>, at: nat, xs: seq<T>, k: nat)
    requires at + |xs| <= |s| && k < |s|
    ensures Overwritten(s, at, xs)[k] == if at <= k < at + |xs| then xs[k - at] else s[k]
  {
  }
}
