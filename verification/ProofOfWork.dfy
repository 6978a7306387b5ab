/** apps/server/src/auth/pow.ts and solvePow of apps/web/src/api/auth-client.ts: a signed challenge,
    the work of finding a solution, and its check. */
module ProofOfWork {
  import opened Bytes
  import opened Options
  import opened MonthKeys

  datatype Payload = Payload(nonce: string, difficulty: int, issuedAt: int)

  /** HMAC and SHA-256, and the JSON-in-base64url codec of the payload. */
  datatype Lib = Lib(sign: string -> string, sha: string -> seq<Byte>, encode: Payload -> string, decode: string -> Option<Payload>)

  predicate Ascii(s: string) {
    forall i :: 0 <= i < |s| ==> s[i] < '\U{0080}'
  }

  /** The base64url alphabet of section 5 of RFC 4648 has no '.', and a payload decodes to itself. */
  ghost predicate Sound(lib: Lib) {
    && (forall body :: '.' !in lib.sign(body) && Ascii(lib.sign(body)))
    && (forall p :: lib.encode(p) != "" && lib.decode(lib.encode(p)) == Some(p))
  }

  // ---- leading zero bits ---------------------------------------------------------------------------

  function Pow2(k: nat): (p: nat)
    ensures p >= 1
  {
    if k == 0 then 1 else 2 * Pow2(k - 1)
  }

  /** The digest as a big-endian number. */
  function Value(digest: seq<Byte>): nat {
    if digest == [] then 0 else digest[0] as int * Pow2(8 * (|digest| - 1)) + Value(digest[1..])
  }

  /** At least `bits` leading zero bits: the number is below 2^(8L - bits). */
  predicate LeadingZeros(digest: seq<Byte>, bits: int) {
    bits <= 0 || (bits <= 8 * |digest| && Value(digest) < Pow2(8 * |digest| - bits))
  }

  lemma {:induction false} PowSum(a: nat, b: nat)
    ensures Pow2(a + b) == Pow2(a) * Pow2(b)
  {
    if a > 0 {
      PowSum(a - 1, b);
      assert Pow2(a + b) == 2 * Pow2(a - 1 + b);
      Reassociate(2, Pow2(a - 1), Pow2(b));
    }
  }

  lemma Reassociate(a: int, b: int, c: int)
    ensures a * (b * c) == (a * b) * c
  {
  }

  lemma Pow8()
    ensures Pow2(8) == 256
  {
    assert Pow2(4) == 2 * Pow2(3) == 4 * Pow2(2) == 8 * Pow2(1) == 16;
    PowSum(4, 4);
  }

  lemma {:induction false} ValueBound(digest: seq<Byte>)
    ensures Value(digest) < Pow2(8 * |digest|)
  {
    if digest != [] {
      ValueBound(digest[1..]);
      Pow8();
      PowSum(8, 8 * (|digest| - 1));
      Multiply(digest[0] as int, 256, Pow2(8 * (|digest| - 1)));
    }
  }

  lemma Distribute(a: int, b: int, c: int)
    ensures (a + b) * c == a * c + b * c
  {
  }

  lemma NonNegative(a: nat, b: nat)
    ensures a * b >= 0
  {
  }

  lemma Multiply(b: int, limit: int, p: nat)
    requires b < limit
    ensures b * p + p <= limit * p
  {
    calc {
      limit * p;
    == { Distribute(b + 1, limit - b - 1, p); }
      (b + 1) * p + (limit - b - 1) * p;
    >= { NonNegative(limit - b - 1, p); }
      (b + 1) * p;
    == { Distribute(b, 1, p); }
      b * p + p;
    }
  }

  /** The head of a number decides a comparison with a multiple of the weight of its tail. */
  lemma HeadDecides(b: nat, v: nat, p: nat, limit: nat)
    requires v < p
    ensures b * p + v < limit * p <==> b < limit
  {
    if b < limit {
      Multiply(b, limit, p);
    } else {
      Distribute(limit, b - limit, p);
      NonNegative(b - limit, p);
    }
  }

  lemma ZeroByte(digest: seq<Byte>, bits: int)
    requires digest != [] && bits >= 8
    ensures LeadingZeros(digest, bits) <==> digest[0] == 0 && LeadingZeros(digest[1..], bits - 8)
  {
    ValueBound(digest[1..]);
    if digest[0] != 0 && bits <= 8 * |digest| {
      HeadDecides(digest[0] as int, Value(digest[1..]), Pow2(8 * (|digest| - 1)), 1);
      PowGrows(8 * |digest| - bits, 8 * (|digest| - 1));
    }
  }

  lemma {:induction false} PowGrows(a: nat, b: nat)
    requires a <= b
    ensures Pow2(a) <= Pow2(b)
  {
    if a < b { PowGrows(a, b - 1); }
  }

  lemma PartByte(digest: seq<Byte>, bits: int)
    requires digest != [] && 0 < bits < 8
    ensures LeadingZeros(digest, bits) <==> (digest[0] as int) < Pow2(8 - bits)
  {
    var n := |digest| - 1;
    ValueBound(digest[1..]);
    PowSum(8 - bits, 8 * n);
    HeadDecides(digest[0] as int, Value(digest[1..]), Pow2(8 * n), Pow2(8 - bits));
  }

  lemma SmallPowers()
    ensures Pow2(1) == 2 && Pow2(2) == 4 && Pow2(3) == 8 && Pow2(4) == 16 && Pow2(5) == 32 && Pow2(6) == 64 && Pow2(7) == 128
  {
    assert Pow2(3) == 2 * Pow2(2) && Pow2(5) == 2 * Pow2(4) && Pow2(7) == 2 * Pow2(6);
  }

  /** `byte & (0xff << (8 - remaining))` looks at the first `remaining` bits of the byte. */
  predicate MaskClear(byte: Byte, remaining: nat)
    requires 0 < remaining < 8
  {
    (byte as bv16) & (0xff << (8 - remaining)) == 0
  }

  function Limit(remaining: nat): nat {
    match remaining case 1 => 128 case 2 => 64 case 3 => 32 case 4 => 16 case 5 => 8 case 6 => 4 case _ => 2
  }

  lemma MaskLimit(byte: Byte, remaining: nat)
    requires 0 < remaining < 8
    ensures MaskClear(byte, remaining) <==> (byte as int) < Limit(remaining)
  {
  }

  lemma MaskTests(byte: Byte, remaining: nat)
    requires 0 < remaining < 8
    ensures MaskClear(byte, remaining) <==> (byte as int) < Pow2(8 - remaining)
  {
    hide MaskClear;
    MaskLimit(byte, remaining);
    SmallPowers();
  }

  method HasLeadingZeroBits(digest: seq<Byte>, bits: int) returns (ok: bool)
    ensures ok <==> LeadingZeros(digest, bits)
  {
    hide LeadingZeros, MaskClear;
    var remaining := bits;
    assert digest[0..] == digest;
    for i := 0 to |digest|
      invariant LeadingZeros(digest, bits) <==> LeadingZeros(digest[i..], remaining)
    {
      var rest := digest[i..];
      var byte := digest[i];
      assert rest[0] == byte && rest[1..] == digest[i + 1..];
      if remaining <= 0 {
        NoneNeeded(rest, remaining);
        return true;
      }
      if remaining >= 8 {
        ZeroByte(rest, remaining);
        if byte != 0 { return false; }
        remaining := remaining - 8;
        continue;
      }
      PartByte(rest, remaining);
      MaskTests(byte, remaining);
      return MaskClear(byte, remaining);
    }
    assert digest[|digest|..] == [];
    NoneNeeded([], remaining);
    return remaining <= 0;
  }

  lemma NoneNeeded(digest: seq<Byte>, bits: int)
    ensures bits <= 0 ==> LeadingZeros(digest, bits)
    ensures digest == [] ==> (LeadingZeros(digest, bits) <==> bits <= 0)
  {
  }

  // ---- the verifier ---------------------------------------------------------------------------------

  /** lastIndexOf('.') */
  function LastDot(s: string): (k: int)
    ensures -1 <= k < |s| && (k >= 0 ==> s[k] == '.') && forall i :: k < i < |s| ==> s[i] != '.'
  {
    if s == "" then -1 else if s[|s| - 1] == '.' then |s| - 1 else LastDot(s[..|s| - 1])
  }

  /** Throws: timingSafeEqual refuses buffers of different lengths, which texts of one length have
      when one of them is not ASCII. */
  datatype Verdict = Accepted | Malformed | BadSignature | Expired | InsufficientWork | Throws

  function Verified(lib: Lib, ttlSeconds: nat, challenge: string, solution: string, now: int): Verdict {
    var idx := LastDot(challenge);
    if idx <= 0 then Malformed
    else
      var (body, sig) := (challenge[..idx], challenge[idx + 1..]);
      if |sig| != |lib.sign(body)| then BadSignature
      else if !Ascii(sig) then Throws
      else if sig != lib.sign(body) then BadSignature
      else match lib.decode(body)
        case None => Malformed
        case Some(p) =>
          if now - p.issuedAt > ttlSeconds * 1000 then Expired
          else if !LeadingZeros(lib.sha(challenge + ":" + solution), p.difficulty) then InsufficientWork
          else Accepted
  }

  function Challenge(lib: Lib, p: Payload): string {
    lib.encode(p) + "." + lib.sign(lib.encode(p))
  }

  class PowVerifier {
    const lib: Lib
    const difficulty: int
    const ttlSeconds: nat

    constructor (lib: Lib, difficulty: int, ttlSeconds: nat)
      ensures this.lib == lib && this.difficulty == difficulty && this.ttlSeconds == ttlSeconds
    {
      this.lib, this.difficulty, this.ttlSeconds := lib, difficulty, ttlSeconds;
    }

    method Issue(nonce: string, now: int) returns (challenge: string, bits: int, expiresAt: int)
      ensures challenge == Challenge(lib, Payload(nonce, difficulty, now)) && bits == difficulty
      ensures expiresAt == now + ttlSeconds * 1000
    {
      var payload := Payload(nonce, difficulty, now);
      var body := lib.encode(payload);
      challenge := body + "." + lib.sign(body);
      bits, expiresAt := difficulty, now + ttlSeconds * 1000;
    }

    method Verify(challenge: string, solution: string, now: int) returns (verdict: Verdict)
      ensures verdict == Verified(lib, ttlSeconds, challenge, solution, now)
    {
      var idx := LastDot(challenge);
      if idx <= 0 { return Malformed; }
      var body, sig := challenge[..idx], challenge[idx + 1..];
      var expected := lib.sign(body);
      if |sig| != |expected| { return BadSignature; }
      if !Ascii(sig) { return Throws; }
      if sig != expected { return BadSignature; }
      var payload := lib.decode(body);
      if payload.None? { return Malformed; }
      if now - payload.value.issuedAt > ttlSeconds * 1000 { return Expired; }
      var enough := HasLeadingZeroBits(lib.sha(challenge + ":" + solution), payload.value.difficulty);
      if !enough { return InsufficientWork; }
      return Accepted;
    }
  }

  // ---- the solver -----------------------------------------------------------------------------------

  function Candidate(prefix: string, counter: nat): string {
    prefix + "-" + NatToString(counter)
  }

  /** No candidate is tried twice. */
  lemma CandidatesDiffer(prefix: string, a: nat, b: nat)
    ensures Candidate(prefix, a) == Candidate(prefix, b) ==> a == b
  {
    NatText(a);
    NatText(b);
    hide NatToString, Number;
    assert Candidate(prefix, a)[|prefix| + 1..] == NatToString(a) && Candidate(prefix, b)[|prefix| + 1..] == NatToString(b);
  }

  predicate Solves(lib: Lib, challenge: string, bits: int, solution: string) {
    LeadingZeros(lib.sha(challenge + ":" + solution), bits)
  }

  /** No candidate before `counter` solves the challenge. */
  ghost predicate First(lib: Lib, challenge: string, difficulty: int, prefix: string, counter: nat) {
    forall k: nat :: k < counter ==> !Solves(lib, challenge, difficulty, Candidate(prefix, k))
  }

  /** The loop has no bound of its own; `enough` is a counter that would do. */
  method SolvePow(lib: Lib, challenge: string, difficulty: int, prefix: string, ghost enough: nat) returns (solution: string)
    requires Solves(lib, challenge, difficulty, Candidate(prefix, enough))
    ensures Solves(lib, challenge, difficulty, solution)
    ensures exists counter: nat ::
      counter <= enough && First(lib, challenge, difficulty, prefix, counter) && solution == prefix + "-" + NatToString(counter)
  {
    var counter := 0;
    while true
      invariant counter <= enough && First(lib, challenge, difficulty, prefix, counter)
      decreases enough - counter
    {
      solution := prefix + "-" + NatToString(counter);
      var found := HasLeadingZeroBits(lib.sha(challenge + ":" + solution), difficulty);
      assert found <==> Solves(lib, challenge, difficulty, Candidate(prefix, counter));
      if found { return; }
      counter := counter + 1;
    }
  }

  // ---- what the two promise each other ----------------------------------------------------------------

  /** A challenge splits at the '.' before its signature. */
  lemma SplitsAtSignature(body: string, sig: string)
    requires '.' !in sig
    ensures LastDot(body + "." + sig) == |body|
    ensures (body + "." + sig)[..|body|] == body && (body + "." + sig)[|body| + 1..] == sig
  {
    hide LastDot;
    var s := body + "." + sig;
    assert s[|body|] == '.';
    assert s[|body| + 1..] == sig;
    forall i | |body| < i < |s| ensures s[i] != '.' { assert s[i] == sig[i - |body| - 1]; }
    LastDotIs(s, |body|);
  }

  lemma LastDotIs(s: string, k: nat)
    requires k < |s| && s[k] == '.' && forall i :: k < i < |s| ==> s[i] != '.'
    ensures LastDot(s) == k
  {
    hide LastDot;
  }

  /** The answer to a challenge that is a body, a dot and a signature: an empty body is malformed; a signature of
      another length, or another ASCII text of the same length, is bad; and with this server's signature it
      is malformed if the body is no payload, expired after its time to live, short of work, or accepted. */
  lemma VerdictOf(lib: Lib, ttlSeconds: nat, body: string, sig: string, solution: string, now: int)
    requires '.' !in sig && Ascii(lib.sign(body))
    ensures var (challenge, verdict) := (body + "." + sig, Verified(lib, ttlSeconds, body + "." + sig, solution, now));
      var (signed, p) := (body != "" && sig == lib.sign(body), lib.decode(body));
      && (verdict == Malformed <==> body == "" || (signed && p == None))
      && (verdict == BadSignature <==> body != "" && sig != lib.sign(body) && (|sig| != |lib.sign(body)| || Ascii(sig)))
      && (verdict == Throws <==> body != "" && |sig| == |lib.sign(body)| && !Ascii(sig))
      && (verdict == Expired <==> signed && p.Some? && p.value.issuedAt + ttlSeconds * 1000 < now)
      && (verdict == InsufficientWork <==>
            && signed && p.Some? && now <= p.value.issuedAt + ttlSeconds * 1000
            && !LeadingZeros(lib.sha(challenge + ":" + solution), p.value.difficulty))
  {
    SplitsAtSignature(body, sig);
    hide LastDot, Ascii, LeadingZeros;
  }

  /** Without a dot it is malformed. */
  lemma NoDotIsMalformed(lib: Lib, ttlSeconds: nat, challenge: string, solution: string, now: int)
    requires '.' !in challenge
    ensures Verified(lib, ttlSeconds, challenge, solution, now) == Malformed
  {
    hide LeadingZeros, Ascii;
  }

  /** verify accepts exactly a challenge this server signed, that is not expired, with enough work. */
  lemma VerifiedIff(lib: Lib, ttlSeconds: nat, challenge: string, solution: string, now: int)
    requires Sound(lib)
    ensures Verified(lib, ttlSeconds, challenge, solution, now) == Accepted <==>
      exists body :: Earned(lib, ttlSeconds, challenge, solution, now, body)
  {
    if body :| Earned(lib, ttlSeconds, challenge, solution, now, body) {
      SplitsAtSignature(body, lib.sign(body));
    }
    if Verified(lib, ttlSeconds, challenge, solution, now) == Accepted {
      AcceptedIsEarned(lib, ttlSeconds, challenge, solution, now);
    }
  }

  lemma AcceptedIsEarned(lib: Lib, ttlSeconds: nat, challenge: string, solution: string, now: int)
    requires Verified(lib, ttlSeconds, challenge, solution, now) == Accepted
    ensures exists body :: Earned(lib, ttlSeconds, challenge, solution, now, body)
  {
    var idx := LastDot(challenge);
    assert challenge == challenge[..idx] + "." + challenge[idx + 1..];
    assert Earned(lib, ttlSeconds, challenge, solution, now, challenge[..idx]);
  }

  /** The challenge is `body` under this server's signature, in time, and the solution does its work. */
  predicate Earned(lib: Lib, ttlSeconds: nat, challenge: string, solution: string, now: int, body: string) {
    && body != "" && challenge == body + "." + lib.sign(body) && lib.decode(body).Some?
    && now - lib.decode(body).value.issuedAt <= ttlSeconds * 1000
    && Solves(lib, challenge, lib.decode(body).value.difficulty, solution)
  }

  /** Every solution the solver finds for an issued challenge is accepted, exactly until it expires. */
  lemma SolvedIsAccepted(lib: Lib, ttlSeconds: nat, p: Payload, solution: string, now: int)
    requires Sound(lib) && Solves(lib, Challenge(lib, p), p.difficulty, solution)
    ensures Verified(lib, ttlSeconds, Challenge(lib, p), solution, now) == Accepted <==> now <= p.issuedAt + ttlSeconds * 1000
  {
    var (challenge, body) := (Challenge(lib, p), lib.encode(p));
    SplitsAtSignature(body, lib.sign(body));
    assert challenge == body + "." + lib.sign(body);
  }

  /** The result is not always one of the documented codes: verify throws exactly for a signature of
      the right length that is not ASCII. */
  lemma ThrowsIff(lib: Lib, ttlSeconds: nat, challenge: string, solution: string, now: int)
    ensures Verified(lib, ttlSeconds, challenge, solution, now) == Throws <==>
      exists body: string, sig: string :: Odd(lib, challenge, body, sig)
  {
    if body: string, sig: string :| Odd(lib, challenge, body, sig) {
      SplitsAtSignature(body, sig);
      hide LastDot, Ascii, LeadingZeros;
    }
    if Verified(lib, ttlSeconds, challenge, solution, now) == Throws {
      ThrownIsOdd(lib, ttlSeconds, challenge, solution, now);
    }
  }

  lemma ThrownIsOdd(lib: Lib, ttlSeconds: nat, challenge: string, solution: string, now: int)
    requires Verified(lib, ttlSeconds, challenge, solution, now) == Throws
    ensures exists body: string, sig: string :: Odd(lib, challenge, body, sig)
  {
    hide LastDot, Ascii, LeadingZeros;
    var idx := LastDot(challenge);
    Cut(challenge, idx);
    hide Verified;
    assert Odd(lib, challenge, challenge[..idx], challenge[idx + 1..]);
  }

  lemma Cut(s: string, k: nat)
    requires k < |s| && s[k] == '.' && forall i :: k < i < |s| ==> s[i] != '.'
    ensures s == s[..k] + "." + s[k + 1..] && '.' !in s[k + 1..]
  {
  }

  /** A challenge whose signature has the right length and is not ASCII. */
  predicate Odd(lib: Lib, challenge: string, body: string, sig: string) {
    body != "" && '.' !in sig && challenge == body + "." + sig && |sig| == |lib.sign(body)| && !Ascii(sig)
  }
}
