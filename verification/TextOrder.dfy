/** The order the program uses on timestamps, month keys and cursors: JavaScript's `<`
    on strings, which compares character by character. */
module TextOrder {

  predicate Less(a: string, b: string) {
    if b == [] then false
    else if a == [] then true
    else a[0] < b[0] || (a[0] == b[0] && Less(a[1..], b[1..]))
  }

  predicate AtMost(a: string, b: string) {
    !Less(b, a)
  }

  lemma {:induction false} Total(a: string, b: string)
    ensures Less(a, b) || a == b || Less(b, a)
  {
    if a != [] && b != [] && a[0] == b[0] {
      Total(a[1..], b[1..]);
      assert a == [a[0]] + a[1..] && b == [b[0]] + b[1..];
    }
  }

  lemma {:induction false} Asymmetric(a: string, b: string)
    requires Less(a, b)
    ensures a != b && !Less(b, a)
  {
    if a != [] && a[0] == b[0] {
      Asymmetric(a[1..], b[1..]);
    }
  }

  lemma {:induction false} Irreflexive(a: string)
    ensures !Less(a, a)
  {
    if a != [] { Irreflexive(a[1..]); }
  }

  lemma {:induction false} Transitive(a: string, b: string, c: string)
    requires Less(a, b) && Less(b, c)
    ensures Less(a, c)
  {
    if a != [] && a[0] == b[0] == c[0] {
      Transitive(a[1..], b[1..], c[1..]);
    }
  }

  /** The same facts for the non-strict order, in the form sorting and filtering need. */
  lemma AtMostTransitive(a: string, b: string, c: string)
    requires AtMost(a, b) && AtMost(b, c)
    ensures AtMost(a, c)
  {
    Total(a, b);
    Total(b, c);
    if Less(c, a) {
      if a == b || b == c {
      } else {
        Transitive(a, b, c);
        Asymmetric(a, c);
      }
    }
  }

  /** Two texts whose heads have one length compare by their heads first. */
  lemma {:induction false} LessConcat(a: string, x: string, b: string, y: string)
    requires |a| == |b|
    ensures Less(a + x, b + y) <==> Less(a, b) || (a == b && Less(x, y))
  {
    if a == [] {
      assert a + x == x && b + y == y;
    } else {
      assert (a + x)[1..] == a[1..] + x && (b + y)[1..] == b[1..] + y;
      LessConcat(a[1..], x, b[1..], y);
      assert a == [a[0]] + a[1..] && b == [b[0]] + b[1..];
    }
  }

  /** A head of a text orders weakly as the text does. */
  lemma HeadMonotone(a: string, b: string, n: nat)
    requires n <= |a| && n <= |b|
    ensures Less(a[..n], b[..n]) ==> Less(a, b)
    ensures AtMost(a, b) ==> AtMost(a[..n], b[..n])
  {
    LessConcat(a[..n], a[n..], b[..n], b[n..]);
    LessConcat(b[..n], b[n..], a[..n], a[n..]);
    assert a == a[..n] + a[n..] && b == b[..n] + b[n..];
  }
}
