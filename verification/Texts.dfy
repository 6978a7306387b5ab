/** JavaScript's includes on texts. */
module Texts {

  predicate At(s: string, part: string, i: nat) {
    i + |part| <= |s| && s[i..i + |part|] == part
  }

  predicate Includes(s: string, part: string) {
    exists i :: 0 <= i <= |s| && At(s, part, i)
  }

  lemma IncludesParts(s: string, part: string)
    ensures Includes(s, part) <==> exists before, after :: s == before + part + after
  {
    if i :| 0 <= i <= |s| && At(s, part, i) {
      assert s == s[..i] + part + s[i + |part|..];
    }
    if before, after :| s == before + part + after {
      assert At(s, part, |before|);
    }
  }

  lemma CoversChar(s: string, part: string, i: nat, k: nat)
    requires At(s, part, i) && i <= k < i + |part|
    ensures s[k] in part
  {
    assert part[k - i] == s[i..i + |part|][k - i];
  }

  /** A text without a blank is not found across one. */
  lemma IncludesAcross(a: string, b: string, part: string)
    requires ' ' !in part
    ensures Includes(a + " " + b, part) <==> Includes(a, part) || Includes(b, part)
  {
    var s := a + " " + b;
    if i :| 0 <= i <= |s| && At(s, part, i) {
      if i + |part| <= |a| {
        assert s[i..i + |part|] == a[i..i + |part|];
        assert At(a, part, i);
      } else if i > |a| {
        var k := i - |a| - 1;
        assert s[i..i + |part|] == b[k..k + |part|];
        assert At(b, part, k);
      } else {
        CoversChar(s, part, i, |a|);
      }
    }
    if i :| 0 <= i <= |a| && At(a, part, i) {
      assert s[i..i + |part|] == a[i..i + |part|];
      assert At(s, part, i);
    }
    if i :| 0 <= i <= |b| && At(b, part, i) {
      var k := |a| + 1 + i;
      assert s[k..k + |part|] == b[i..i + |part|];
      assert At(s, part, k);
    }
  }
}
