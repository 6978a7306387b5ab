/** Array.prototype.sort with a comparator that orders by a text key, largest key first:
    a stable sort, so equal keys keep their order. */
module StableSort {
  import opened TextOrder

  ghost predicate Descending<T>(s: seq<T>, key: T -> string) {
    forall i, j :: 0 <= i < j < |s| ==> AtMost(key(s[j]), key(s[i]))
  }

  function Insert<T>(x: T, s: seq<T>, key: T -> string): seq<T> {
    if s == [] || AtMost(key(s[0]), key(x)) then [x] + s else [s[0]] + Insert(x, s[1..], key)
  }

  function Sort<T>(s: seq<T>, key: T -> string): seq<T> {
    if s == [] then [] else Insert(s[0], Sort(s[1..], key), key)
  }

  lemma {:induction false} InsertKeeps<T>(x: T, s: seq<T>, key: T -> string)
    ensures multiset(Insert(x, s, key)) == multiset{x} + multiset(s)
  {
    if s != [] && !AtMost(key(s[0]), key(x)) {
      InsertKeeps(x, s[1..], key);
      assert s == [s[0]] + s[1..];
    }
  }

  lemma {:induction false} InsertDescending<T>(x: T, s: seq<T>, key: T -> string)
    requires Descending(s, key)
    ensures Descending(Insert(x, s, key), key)
  {
    hide AtMost;
    var r := Insert(x, s, key);
    if s == [] {
    } else if AtMost(key(s[0]), key(x)) {
      forall i, j | 0 <= i < j < |r|
        ensures AtMost(key(r[j]), key(r[i]))
      {
        if i == 0 && j > 1 {
          assert AtMost(key(s[j - 1]), key(s[0]));
          AtMostTransitive(key(s[j - 1]), key(s[0]), key(x));
        }
      }
    } else {
      InsertDescending(x, s[1..], key);
      InsertKeeps(x, s[1..], key);
      var t := Insert(x, s[1..], key);
      forall j | 0 <= j < |t|
        ensures AtMost(key(t[j]), key(s[0]))
      {
        assert t[j] in multiset(t);
        if t[j] != x {
          assert t[j] in multiset(s[1..]);
          var k :| 0 <= k < |s[1..]| && s[1..][k] == t[j];
          assert s[k + 1] == t[j];
        } else {
          assert AtMost(key(x), key(s[0])) by { NotAtMost(key(s[0]), key(x)); }
        }
      }
    }
  }

  lemma NotAtMost(a: string, b: string)
    requires !AtMost(a, b)
    ensures AtMost(b, a)
  {
    Asymmetric(b, a);
  }

  /** Sorting gives the same elements in descending order. */
  lemma {:induction false} SortCorrect<T>(s: seq<T>, key: T -> string)
    ensures multiset(Sort(s, key)) == multiset(s)
    ensures Descending(Sort(s, key), key)
  {
    assert Descending<T>([], key);
    hide AtMost, Descending;
    if s != [] {
      SortCorrect(s[1..], key);
      InsertKeeps(s[0], Sort(s[1..], key), key);
      InsertDescending(s[0], Sort(s[1..], key), key);
      assert s == [s[0]] + s[1..];
    }
  }

  /** It leaves a descending sequence alone: ties are not reordered. */
  lemma {:induction false} SortStays<T>(s: seq<T>, key: T -> string)
    requires Descending(s, key)
    ensures Sort(s, key) == s
  {
    hide AtMost;
    if |s| > 1 {
      SortStays(s[1..], key);
      assert AtMost(key(s[1]), key(s[0]));
    }
  }
}
