/** Counting the ids that the members of a queue carry, as a multiset. */
module Tally {
  import opened Sequences

  function Sum<T>(q: seq<T>, ids: T -> multiset<nat>): multiset<nat> {
    if q == [] then multiset{} else ids(q[0]) + Sum(q[1..], ids)
  }

  lemma {:induction false} SumConcat<T>(a: seq<T>, b: seq<T>, ids: T -> multiset<nat>)
    ensures Sum(a + b, ids) == Sum(a, ids) + Sum(b, ids)
  {
    if a == [] {
      assert a + b == b;
    } else {
      assert (a + b)[1..] == a[1..] + b;
      SumConcat(a[1..], b, ids);
    }
  }

  lemma SumOne<T>(x: T, ids: T -> multiset<nat>)
    ensures Sum([x], ids) == ids(x)
  {
    assert [x][1..] == [];
  }

  lemma SumCons<T>(x: T, q: seq<T>, ids: T -> multiset<nat>)
    ensures Sum([x] + q, ids) == ids(x) + Sum(q, ids)
  {
    assert ([x] + q)[1..] == q;
  }

  lemma SumSnoc<T>(q: seq<T>, x: T, ids: T -> multiset<nat>)
    ensures Sum(q + [x], ids) == Sum(q, ids) + ids(x)
  {
    SumOne(x, ids);
    SumConcat(q, [x], ids);
  }

  lemma SumWithout<T>(q: seq<T>, i: nat, ids: T -> multiset<nat>)
    requires i < |q|
    ensures Sum(q, ids) == ids(q[i]) + Sum(Without(q, i), ids)
  {
    hide Sum;
    var (before, after) := (q[..i], q[i + 1..]);
    SumSnoc(before, q[i], ids);
    SumConcat(before + [q[i]], after, ids);
    SumConcat(before, after, ids);
    assert q == (before + [q[i]]) + after;
  }

  lemma {:induction false} SumMember<T>(q: seq<T>, x: T, ids: T -> multiset<nat>)
    requires x in q
    ensures ids(x) <= Sum(q, ids)
  {
    if q[0] != x { SumMember(q[1..], x, ids); }
  }

  lemma {:induction false} SumHas<T>(q: seq<T>, n: nat, ids: T -> multiset<nat>)
    requires n in Sum(q, ids)
    ensures exists x :: x in q && n in ids(x)
  {
    if n !in ids(q[0]) { SumHas(q[1..], n, ids); }
  }

  lemma SetAdd(s: set<nat>, x: nat)
    requires x !in s
    ensures multiset(s + {x}) == multiset(s) + multiset{x}
  {
  }

  lemma SetDrop(s: set<nat>, x: nat)
    requires x in s
    ensures multiset(s) == multiset(s - {x}) + multiset{x}
  {
  }

  lemma SumEmpty<T>(ids: T -> multiset<nat>)
    ensures Sum([], ids) == multiset{}
  {
  }
}
