/** Month keys `YYYY-MM`: how they are made, stepped back, shifted and ordered
    (event-log/paths.ts, search.ts and retention.ts). A month is also counted as
    `12 * year + (month - 1)`, the number the proofs use. */
module MonthKeys {
  import opened TextOrder

  // ---- number formatting, as JavaScript does it ---------------------------------

  function Digit(d: nat): char
    requires d < 10
  {
    '0' + d as char
  }

  function NatToString(n: nat): (s: string)
    ensures |s| >= 1
  {
    if n < 10 then [Digit(n)] else NatToString(n / 10) + [Digit(n % 10)]
  }

  function IntToString(n: int): string {
    if n < 0 then "-" + NatToString(-n) else NatToString(n)
  }

  function PadStart(s: string, width: nat): string
    decreases width - |s|
  {
    if |s| >= width then s else PadStart("0" + s, width)
  }

  predicate IsDigits(s: string) {
    forall i :: 0 <= i < |s| ==> '0' <= s[i] <= '9'
  }

  /** `Number(text)` on a run of digits. */
  function Number(s: string): nat
    requires IsDigits(s)
  {
    if s == [] then 0 else 10 * Number(s[..|s| - 1]) + (s[|s| - 1] - '0') as int
  }

  lemma {:induction false} NatText(n: nat)
    ensures IsDigits(NatToString(n)) && Number(NatToString(n)) == n
  {
    var s := NatToString(n);
    if n >= 10 {
      NatText(n / 10);
      assert s[..|s| - 1] == NatToString(n / 10);
    } else {
      assert s[..|s| - 1] == [];
    }
  }

  /** Exactly `width` digits of n; the closed form of toString().padStart(width, '0'). */
  function Digits(n: nat, width: nat): (s: string)
    ensures |s| == width && IsDigits(s)
  {
    if width == 0 then [] else Digits(n / 10, width - 1) + [Digit(n % 10)]
  }

  function Pow10(k: nat): (p: nat)
    ensures p >= 1
  {
    if k == 0 then 1 else 10 * Pow10(k - 1)
  }

  lemma Powers()
    ensures Pow10(1) == 10 && Pow10(2) == 100 && Pow10(4) == 10000
  {
    assert Pow10(2) == 10 * Pow10(1) && Pow10(3) == 10 * Pow10(2) && Pow10(4) == 10 * Pow10(3);
  }

  lemma {:induction false} DigitsPadded(n: nat, width: nat)
    requires width >= 1 && n < Pow10(width)
    ensures PadStart(NatToString(n), width) == Digits(n, width)
  {
    if width == 1 {
      assert Pow10(1) == 10 * Pow10(0) == 10;
      assert Digits(n / 10, 0) == [];
    } else if n < 10 {
      PadZeros([Digit(n)], width);
      ZeroDigits(width - 1);
      assert n / 10 == 0;
    } else {
      DigitsPadded(n / 10, width - 1);
      PadAppend(NatToString(n / 10), Digit(n % 10), width - 1);
    }
  }

  function Zeros(k: nat): (s: string)
    ensures |s| == k
  {
    if k == 0 then [] else "0" + Zeros(k - 1)
  }

  lemma {:induction false} ZerosSnoc(k: nat)
    requires k >= 1
    ensures Zeros(k) == Zeros(k - 1) + "0"
  {
    if k > 1 { ZerosSnoc(k - 1); }
  }

  lemma {:induction false} PadZeros(s: string, width: nat)
    requires |s| <= width
    ensures PadStart(s, width) == Zeros(width - |s|) + s
    decreases width - |s|
  {
    if |s| < width {
      PadZeros("0" + s, width);
      ZerosSnoc(width - |s|);
      assert Zeros(width - |s| - 1) + ("0" + s) == (Zeros(width - |s| - 1) + "0") + s;
    }
  }

  lemma {:induction false} ZeroDigits(k: nat)
    ensures Digits(0, k) == Zeros(k)
  {
    if k > 0 {
      ZeroDigits(k - 1);
      ZerosSnoc(k);
    }
  }

  lemma {:induction false} PadAppend(s: string, c: char, width: nat)
    ensures PadStart(s + [c], width + 1) == PadStart(s, width) + [c]
    decreases width - |s|
  {
    if |s| < width {
      assert "0" + (s + [c]) == ("0" + s) + [c];
      PadAppend("0" + s, c, width);
    }
  }

  /** Reading a fixed-width number back. */
  lemma {:induction false} NumberOfDigits(n: nat, width: nat)
    requires n < Pow10(width)
    ensures Number(Digits(n, width)) == n
  {
    if width > 0 {
      NumberOfDigits(n / 10, width - 1);
      var s := Digits(n, width);
      assert s[..|s| - 1] == Digits(n / 10, width - 1);
    }
  }

  /** Fixed-width numbers sort as text the way they sort as numbers. */
  lemma {:induction false} DigitsOrder(a: nat, b: nat, width: nat)
    requires a < Pow10(width) && b < Pow10(width)
    ensures Less(Digits(a, width), Digits(b, width)) <==> a < b
    ensures Digits(a, width) == Digits(b, width) <==> a == b
  {
    if width > 0 {
      DigitsOrder(a / 10, b / 10, width - 1);
      LessConcat(Digits(a / 10, width - 1), [Digit(a % 10)], Digits(b / 10, width - 1), [Digit(b % 10)]);
      var x, y := Digits(a, width), Digits(b, width);
      assert x[..width - 1] == Digits(a / 10, width - 1) && x[width - 1] == Digit(a % 10);
      assert y[..width - 1] == Digits(b / 10, width - 1) && y[width - 1] == Digit(b % 10);
    }
  }

  // ---- month keys -----------------------------------------------------------------

  function KeyOf(year: int, month: nat): string {
    PadStart(IntToString(year), 4) + "-" + PadStart(NatToString(month), 2)
  }

  /** The key of a month counted from year 0; -1 is what one step back from year 0 gives. */
  function Key(t: int): string
    requires t >= -1
  {
    KeyOf(t / 12, t % 12 + 1)
  }

  const MONTHS := 120000

  predicate IsMonthKey(key: string) {
    && |key| == 7 && key[4] == '-' && IsDigits(key[..4]) && IsDigits(key[5..])
    && 1 <= Number(key[5..]) <= 12
  }

  function Index(key: string): nat
    requires IsMonthKey(key)
  {
    12 * Number(key[..4]) + Number(key[5..]) - 1
  }

  lemma {:induction false} DigitsOfNumber(s: string)
    requires IsDigits(s)
    ensures Number(s) < Pow10(|s|) && Digits(Number(s), |s|) == s
  {
    if s != [] {
      var h := s[..|s| - 1];
      DigitsOfNumber(h);
      var last := (s[|s| - 1] - '0') as int;
      assert Number(s) / 10 == Number(h) && Number(s) % 10 == last;
      assert Digit(last) == s[|s| - 1];
      assert s == h + [s[|s| - 1]];
    }
  }

  lemma KeyShape(t: nat)
    requires t < MONTHS
    ensures IsMonthKey(Key(t)) && Index(Key(t)) == t
  {
    hide Number, Digits, KeyOf, Pow10;
    var y, m := t / 12, t % 12 + 1;
    KeyOfShape(y, m);
    Powers();
    NumberOfDigits(y, 4);
    NumberOfDigits(m, 2);
    var k := KeyOf(y, m);
    assert k[..4] == Digits(y, 4) && k[5..] == Digits(m, 2);
  }

  /** Every well-formed key is the key of exactly one month. */
  lemma KeyOfIndex(key: string)
    requires IsMonthKey(key)
    ensures Index(key) < MONTHS && Key(Index(key)) == key
  {
    hide Number, Digits, KeyOf, Pow10;
    Powers();
    DigitsOfNumber(key[..4]);
    DigitsOfNumber(key[5..]);
    var y, m := Number(key[..4]), Number(key[5..]);
    KeyOfShape(y, m);
    YearAndMonth(y, m);
    assert key == key[..4] + ("-" + key[5..]);
  }

  lemma KeyOfShape(y: nat, m: nat)
    requires y < 10000 && m < 100
    ensures KeyOf(y, m) == Digits(y, 4) + ("-" + Digits(m, 2))
  {
    Powers();
    DigitsPadded(y, 4);
    DigitsPadded(m, 2);
  }

  lemma JoinedOrder(a: string, b: string, a': string, b': string)
    requires |a| == |a'|
    ensures Less(a + ("-" + b), a' + ("-" + b')) <==> Less(a, a') || (a == a' && Less(b, b'))
  {
    LessConcat("-", b, "-", b');
    LessConcat(a, "-" + b, a', "-" + b');
  }

  lemma JoinedInjective(a: string, b: string, a': string, b': string)
    requires |a| == |a'| && a + ("-" + b) == a' + ("-" + b')
    ensures a == a' && b == b'
  {
    var s, s' := a + ("-" + b), a' + ("-" + b');
    assert s[..|a|] == a && s'[..|a|] == a' && s[|a| + 1..] == b && s'[|a| + 1..] == b';
  }

  lemma KeyOfOrder(y: nat, m: nat, y': nat, m': nat)
    requires y < 10000 && y' < 10000 && m < 100 && m' < 100
    ensures Less(KeyOf(y, m), KeyOf(y', m')) <==> y < y' || (y == y' && m < m')
    ensures KeyOf(y, m) == KeyOf(y', m') <==> y == y' && m == m'
  {
    KeyOfShape(y, m);
    KeyOfShape(y', m');
    Powers();
    DigitsOrder(y, y', 4);
    DigitsOrder(m, m', 2);
    hide Less, Digits;
    JoinedOrder(Digits(y, 4), Digits(m, 2), Digits(y', 4), Digits(m', 2));
    if KeyOf(y, m) == KeyOf(y', m') {
      JoinedInjective(Digits(y, 4), Digits(m, 2), Digits(y', 4), Digits(m', 2));
    }
  }

  /** Text order on month keys is time order. */
  lemma KeyOrder(t: nat, u: nat)
    requires t < MONTHS && u < MONTHS
    ensures Less(Key(t), Key(u)) <==> t < u
    ensures Key(t) == Key(u) <==> t == u
  {
    var y, m, y', m' := t / 12, t % 12, u / 12, u % 12;
    assert t == 12 * y + m && u == 12 * y' + m' && m < 12 && m' < 12;
    KeyOfOrder(y, m + 1, y', m' + 1);
  }

  /** One step back, as search.ts computes it on the text. */
  function DecrementMonth(key: string): string
    requires IsMonthKey(key)
  {
    var y: int := Number(key[..4]);
    var m: int := Number(key[5..]) - 1;
    if m == 0 then KeyOf(y - 1, 12) else KeyOf(y, m)
  }

  lemma YearAndMonth(y: int, m: int)
    requires 1 <= m <= 12
    ensures (12 * y + m - 1) / 12 == y && (12 * y + m - 1) % 12 == m - 1
    ensures (12 * y + m - 2) / 12 == (if m == 1 then y - 1 else y)
    ensures (12 * y + m - 2) % 12 == (if m == 1 then 11 else m - 2)
  {
  }

  lemma StepBack(key: string)
    requires IsMonthKey(key)
    ensures Index(key) < MONTHS && DecrementMonth(key) == Key(Index(key) - 1)
    ensures Index(key) >= 1 ==> IsMonthKey(DecrementMonth(key)) && Index(DecrementMonth(key)) == Index(key) - 1
  {
    hide KeyOf, Number;
    KeyOfIndex(key);
    var t, y, m := Index(key) as int, Number(key[..4]) as int, Number(key[5..]) as int;
    YearAndMonth(y, m);
    if t >= 1 { KeyShape(t - 1); }
  }

  lemma YearMinusOne()
    ensures Key(-1) == "00-1-12"
  {
    assert (-1) / 12 == -1 && (-1) % 12 == 11;
    assert NatToString(1) == "1" && IntToString(-1) == "-1";
    assert NatToString(12) == NatToString(1) + [Digit(2)] == "12";
    PadZeros("-1", 4);
    assert Zeros(2) == "0" + Zeros(1) && Zeros(1) == "0" + Zeros(0);
  }

  /** The step back from the first month of year 0 is a malformed key below every key. */
  lemma BeforeYearZero(key: string)
    requires IsMonthKey(key)
    ensures Less(Key(-1), key)
  {
    hide Key;
    YearMinusOne();
    assert IsDigits(key[..4]) && key[..4][0] == key[0] && key[..4][1] == key[1] && key[..4][2] == key[2];
    LessConcat("00-", "1-12", key[..3], key[3..]);
    LessConcat("00", "-", key[..2], key[2..3]);
    assert key == key[..3] + key[3..] && key[..3] == key[..2] + key[2..3];
    if key[0] == '0' {
      LessConcat("0", "0", key[..1], key[1..2]);
      assert key[..2] == key[..1] + key[1..2] && "00" == "0" + "0";
    }
    assert "00-1-12" == "00-" + "1-12" && "00-" == "00" + "-";
  }

  /** retention.ts: the key `delta` months away, by arithmetic on the month count. */
  function MonthKeyOffset(now: string, delta: int): string
    requires IsMonthKey(now)
  {
    var total := Index(now) as int + delta;
    KeyOf(total / 12, total - (total / 12) * 12 + 1)
  }

  function Decrements(key: string, n: nat): string
    requires IsMonthKey(key) && n <= Index(key)
    decreases n
  {
    if n == 0 then key
    else
      StepBack(key);
      Decrements(DecrementMonth(key), n - 1)
  }

  lemma OffsetIsKey(now: string, delta: int)
    requires IsMonthKey(now) && Index(now) + delta >= -1
    ensures MonthKeyOffset(now, delta) == Key(Index(now) + delta)
  {
    hide KeyOf, IsMonthKey, Index;
  }

  /** The two month computations of the program agree: shifting by -n is n steps back. */
  lemma {:induction false} OffsetIsDecrements(now: string, n: nat)
    requires IsMonthKey(now) && n <= Index(now)
    ensures MonthKeyOffset(now, 0 - n as int) == Decrements(now, n) == Key(Index(now) - n)
    decreases n
  {
    hide KeyOf, Key, IsMonthKey, Index, DecrementMonth, MonthKeyOffset;
    OffsetIsKey(now, 0 - n as int);
    KeyOfIndex(now);
    if n > 0 {
      StepBack(now);
      OffsetIsDecrements(DecrementMonth(now), n - 1);
    }
  }

  // ---- monthsInRange ---------------------------------------------------------------

  /** Keys of the months hi, hi - 1, ..., lo. */
  function KeysDown(lo: nat, hi: int): seq<string>
    decreases hi - lo + 1
  {
    if hi < lo then [] else [Key(hi)] + KeysDown(lo, hi - 1)
  }

  lemma {:induction false} KeysDownAt(lo: nat, hi: int)
    ensures |KeysDown(lo, hi)| == if hi < lo then 0 else hi - lo + 1
    ensures forall i :: 0 <= i < |KeysDown(lo, hi)| ==> KeysDown(lo, hi)[i] == Key(hi - i)
    decreases hi - lo + 1
  {
    hide Key;
    if hi >= lo { KeysDownAt(lo, hi - 1); }
  }

  /** search.ts: walk down from the month of `to` to the month of `from`. */
  method MonthsInRange(start: string, end: string) returns (out: seq<string>)
    requires IsMonthKey(start) && IsMonthKey(end)
    ensures out == KeysDown(Index(start), Index(end))
  {
    hide Key, KeyOf, IsMonthKey, Less, Index, DecrementMonth;
    KeyOfIndex(start);
    KeyOfIndex(end);
    var cursor := end;
    out := [];
    ghost var t := Index(end);
    ghost var lo := Index(start);
    while AtMost(start, cursor)
      invariant -1 <= t <= Index(end) && (t + 1 >= lo || out == [])
      invariant cursor == Key(t)
      invariant t >= 0 ==> IsMonthKey(cursor) && Index(cursor) == t
      invariant out + KeysDown(lo, t) == KeysDown(lo, Index(end))
      decreases t
    {
      if t == -1 {
        BeforeYearZero(start);
        assert false;
      }
      KeyOrder(t, lo);
      out := out + [cursor];
      StepBack(cursor);
      cursor := DecrementMonth(cursor);
      t := t - 1;
    }
    if t >= 0 { KeyOrder(t, lo); }
  }

  /** The walk lists every month of the range exactly once, newest first. */
  lemma RangeIsComplete(start: string, end: string, month: string)
    requires IsMonthKey(start) && IsMonthKey(end) && IsMonthKey(month)
    ensures month in KeysDown(Index(start), Index(end)) <==> AtMost(start, month) && AtMost(month, end)
  {
    hide Key, KeyOf, IsMonthKey, Less, Index;
    KeysDownAt(Index(start), Index(end));
    KeyOfIndex(start);
    KeyOfIndex(end);
    KeyOfIndex(month);
    var lo, hi, t := Index(start), Index(end), Index(month);
    KeyOrder(t, lo);
    KeyOrder(hi, t);
    var keys := KeysDown(lo, hi);
    if lo <= t <= hi {
      assert keys[hi - t] == month;
    }
    if month in keys {
      var i :| 0 <= i < |keys| && keys[i] == month;
      KeyOrder(hi - i, t);
    }
  }

  ghost predicate StrictlyDown(months: seq<string>) {
    forall i, j :: 0 <= i < j < |months| ==> Less(months[j], months[i])
  }

  lemma RangeDescends(lo: nat, hi: int)
    requires hi < MONTHS
    ensures StrictlyDown(KeysDown(lo, hi))
  {
    hide Key, Less;
    KeysDownAt(lo, hi);
    var keys := KeysDown(lo, hi);
    forall i, j | 0 <= i < j < |keys|
      ensures Less(keys[j], keys[i])
    {
      KeyOrder(hi - j, hi - i);
    }
  }
}
