/** Facts about sequences that several modules need. */
module Sequences {
  lemma AppendLast<T>(a: seq<T>, b: seq<T>, x: T)
    ensures var s := a + (b + [x]); |s| == |a| + |b| + 1 && s[..|s| - 1] == a + b && s[|s| - 1] == x
  {
  }

  lemma Associate<T>(a: seq<T>, b: seq<T>, c: seq<T>)
    ensures a + (b + c) == (a + b) + c
  {
  }

  ghost predicate Increasing(indices: seq<nat>) {
    forall i, j :: 0 <= i < j < |indices| ==> indices[i] < indices[j]
  }

  // The list during an in-place pass: what was kept so far, then what is still to be looked at.
  lemma AtSeam<T>(kept: seq<T>, all: seq<T>, done: nat)
    requires done < |all|
    ensures var list := kept + all[done..];
            && list[|kept|] == all[done]
            && list[..|kept|] + list[|kept| + 1..] == kept + all[done + 1..]
            && list == (kept + [all[done]]) + all[done + 1..]
  {
  }

  lemma TakenOut<T>(s: seq<T>, i: nat)
    requires i < |s|
    ensures multiset(s) == multiset(s[..i] + s[i + 1..]) + multiset{s[i]}
  {
    assert s == s[..i] + [s[i]] + s[i + 1..];
  }

  lemma DistinctOnce<T>(s: seq<T>, i: nat)
    requires i < |s| && forall j :: 0 <= j < |s| && j != i ==> s[j] != s[i]
    ensures multiset(s)[s[i]] == 1
  {
    TakenOut(s, i);
    var others := s[..i] + s[i + 1..];
    assert s[i] !in others;
  }
}
