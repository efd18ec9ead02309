/** The option type and the facts about sequences that several modules share. */
module Wrappers {
  datatype Option<+T> = None | Some(value: T)

  /** The sequence without the element at position i. */
  function Remove<T>(s: seq<T>, i: nat): seq<T>
    requires i < |s|
  {
    s[..i] + s[i + 1..]
  }

  function Reverse(s: seq<nat>): (r: seq<nat>)
    ensures |r| == |s|
  {
    if s == [] then [] else Reverse(s[1..]) + [s[0]]
  }

  predicate Distinct(s: seq<nat>) {
    forall i, j :: 0 <= i < j < |s| ==> s[i] != s[j]
  }

  lemma {:induction false} ReverseAt(s: seq<nat>, i: nat)
    requires i < |s|
    ensures Reverse(s)[i] == s[|s| - 1 - i]
  {
    if i < |s| - 1 {
      ReverseAt(s[1..], i);
    }
  }

  lemma {:induction false} ReverseMembers(s: seq<nat>)
    ensures forall x :: x in Reverse(s) <==> x in s
    ensures Distinct(s) ==> Distinct(Reverse(s))
  {
    if s != [] {
      ReverseMembers(s[1..]);
      assert Distinct(s) ==> s[0] !in s[1..];
    }
  }

  lemma {:induction false} Cancels(a: multiset<nat>, b: multiset<nat>, c: multiset<nat>)
    requires a + c == b + c
    ensures a == b
  {
    forall x: nat
      ensures a[x] == b[x]
    {
      assert (a + c)[x] == (b + c)[x];
    }
  }
}
