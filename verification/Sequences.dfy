/** A queue without one of its members, and the joined images of a sequence. */
module Sequences {

  function Without<T>(s: seq<T>, i: nat): seq<T>
    requires i < |s|
  {
    s[..i] + s[i + 1..]
  }

  lemma WithoutKeeps<T>(s: seq<T>, i: nat)
    requires i < |s|
    ensures forall j :: 0 <= j < |s| && j != i ==> s[j] in Without(s, i)
    ensures forall x :: x in Without(s, i) ==> x in s
  {
    forall j | 0 <= j < |s| && j != i
      ensures s[j] in Without(s, i)
    {
      assert s[j] == Without(s, i)[if j < i then j else j - 1];
    }
  }

  function FlatMap<T, U>(s: seq<T>, f: T -> seq<U>): seq<U> {
    if s == [] then [] else f(s[0]) + FlatMap(s[1..], f)
  }

  lemma {:induction false} FlatMapSnoc<T, U>(s: seq<T>, x: T, f: T -> seq<U>)
    ensures FlatMap(s + [x], f) == FlatMap(s, f) + f(x)
  {
    if s == [] {
      assert [] + [x] == [x] && [x][1..] == [];
      assert f(x) + [] == f(x) && [] + f(x) == f(x);
    } else {
      assert (s + [x])[1..] == s[1..] + [x];
      FlatMapSnoc(s[1..], x, f);
      Regroup(f(s[0]), FlatMap(s[1..], f), f(x));
    }
  }

  lemma Regroup<T>(a: seq<T>, b: seq<T>, c: seq<T>)
    ensures a + (b + c) == (a + b) + c
  {
  }

  lemma {:induction false} FlatMapMembers<T, U>(s: seq<T>, f: T -> seq<U>, u: U)
    ensures u in FlatMap(s, f) <==> exists x :: x in s && u in f(x)
  {
    if s != [] {
      FlatMapMembers(s[1..], f, u);
      assert forall x :: x in s <==> x == s[0] || x in s[1..];
    }
  }
}
