/** One charger's directory of month files, and what it means for it to hold a given log.
    A log is written newest event first, the order every reader answers in. */
module EventFiles {
  import opened Options
  import opened TextOrder
  import opened MonthKeys
  import opened Ndjson

  /** File name to content. */
  type Directory = map<string, string>

  function FileName(month: string): string {
    month + ".ndjson"
  }

  /** paths.ts: the month of a `YYYY-MM.ndjson` name, None for any other name. */
  function MonthFromFilename(name: string): Option<string> {
    if |name| == 14 && name[4] == '-' && name[7..] == ".ndjson" && IsDigits(name[..4]) && IsDigits(name[5..7])
    then Some(name[..7]) else None
  }

  lemma MonthNameIff(name: string, m: string)
    ensures MonthFromFilename(name) == Some(m) <==>
      name == m + ".ndjson" && |m| == 7 && m[4] == '-' && IsDigits(m[..4]) && IsDigits(m[5..])
  {
    if |name| == 14 && name[7..] == ".ndjson" {
      assert name == name[..7] + name[7..] && name[..7][..4] == name[..4] && name[..7][5..] == name[5..7];
    }
    if name == m + ".ndjson" && |m| == 7 { assert name[..7] == m && name[7..] == ".ndjson"; }
  }

  predicate Between(digits: string, low: nat, high: nat) {
    IsDigits(digits) && low <= Number(digits) <= high
  }

  predicate Leap(year: nat) {
    year % 4 == 0 && (year % 100 != 0 || year % 400 == 0)
  }

  function DaysIn(year: nat, month: nat): nat {
    if month == 2 then (if Leap(year) then 29 else 28) else if month in {4, 6, 9, 11} then 30 else 31
  }

  function MonthDays(key: string): nat
    requires IsMonthKey(key)
  {
    DaysIn(Number(key[..4]), Number(key[5..]))
  }

  /** The fixed-width form toISOString gives for the years 0000 to 9999: YYYY-MM-DDTHH:mm:ss.sssZ,
      each field a digit group in its range. */
  predicate IsUtc(at: string) {
    && |at| == 24 && IsMonthKey(at[..7])
    && at[7] == '-' && Between(at[8..10], 1, MonthDays(at[..7]))
    && at[10] == 'T' && Between(at[11..13], 0, 23)
    && at[13] == ':' && Between(at[14..16], 0, 59)
    && at[16] == ':' && Between(at[17..19], 0, 59)
    && at[19] == '.' && IsDigits(at[20..23]) && at[23] == 'Z'
  }

  function Month(e: DeviceEvent): string {
    if |e.at| >= 7 then e.at[..7] else e.at
  }

  function Wanted(log: seq<DeviceEvent>, keep: Filter): seq<DeviceEvent> {
    if log == [] then []
    else if keep(log[0]) then [log[0]] + Wanted(log[1..], keep)
    else Wanted(log[1..], keep)
  }

  function InMonth(log: seq<DeviceEvent>, month: string): seq<DeviceEvent> {
    if log == [] then []
    else if Month(log[0]) == month then [log[0]] + InMonth(log[1..], month)
    else InMonth(log[1..], month)
  }

  const Every: Filter := (e: DeviceEvent) => true

  function MonthEvents(codec: Codec, keep: Filter, dir: Directory, month: string): seq<DeviceEvent> {
    if FileName(month) in dir then Newest(codec, keep, Split(dir[FileName(month)])) else []
  }

  /** Each month file holds exactly the events of the log that fall in its month. */
  ghost predicate Holds(codec: Codec, dir: Directory, log: seq<DeviceEvent>) {
    forall month :: MonthEvents(codec, Every, dir, month) == InMonth(log, month)
  }

  ghost predicate NewestFirst(log: seq<DeviceEvent>) {
    && (forall i :: 0 <= i < |log| ==> IsUtc(log[i].at))
    && (forall i, j :: 0 <= i < j < |log| ==> AtMost(log[j].at, log[i].at))
  }

  /** The events read off the files of some months, in the order of the months. */
  function OffFiles(codec: Codec, keep: Filter, dir: Directory, months: seq<string>): seq<DeviceEvent> {
    if months == [] then []
    else MonthEvents(codec, keep, dir, months[0]) + OffFiles(codec, keep, dir, months[1..])
  }

  function ByMonth(log: seq<DeviceEvent>, months: seq<string>): seq<DeviceEvent> {
    if months == [] then [] else InMonth(log, months[0]) + ByMonth(log, months[1..])
  }

  // ---- filtering commutes with everything --------------------------------------------

  lemma {:induction false} WantedConcat(a: seq<DeviceEvent>, b: seq<DeviceEvent>, keep: Filter)
    ensures Wanted(a + b, keep) == Wanted(a, keep) + Wanted(b, keep)
  {
    if a == [] {
      assert a + b == b;
    } else {
      assert (a + b)[1..] == a[1..] + b;
      WantedConcat(a[1..], b, keep);
    }
  }

  lemma {:induction false} NewestFilters(codec: Codec, keep: Filter, lines: seq<string>)
    ensures Newest(codec, keep, lines) == Wanted(Newest(codec, Every, lines), keep)
  {
    if lines != [] {
      var init := lines[..|lines| - 1];
      NewestFilters(codec, keep, init);
      var older := Newest(codec, Every, init);
      match EventOn(codec, Every, lines[|lines| - 1])
      case None =>
      case Some(e) => assert ([e] + older)[1..] == older;
    }
  }

  lemma {:induction false} MonthFilters(log: seq<DeviceEvent>, keep: Filter, month: string)
    ensures InMonth(Wanted(log, keep), month) == Wanted(InMonth(log, month), keep)
  {
    if log != [] {
      MonthFilters(log[1..], keep, month);
      var (w, m) := (Wanted(log[1..], keep), InMonth(log[1..], month));
      assert ([log[0]] + w)[1..] == w && ([log[0]] + m)[1..] == m;
    }
  }

  lemma {:induction false} WantedMembers(log: seq<DeviceEvent>, keep: Filter, e: DeviceEvent)
    ensures e in Wanted(log, keep) <==> e in log && keep(e)
  {
    if log != [] {
      WantedMembers(log[1..], keep, e);
      assert log == [log[0]] + log[1..];
    }
  }

  lemma {:induction false} WantedOrdered(log: seq<DeviceEvent>, keep: Filter)
    requires NewestFirst(log)
    ensures NewestFirst(Wanted(log, keep))
  {
    hide AtMost, IsUtc;
    if log != [] {
      assert NewestFirst(log[1..]);
      WantedOrdered(log[1..], keep);
      var w := Wanted(log[1..], keep);
      forall j | 0 <= j < |w|
        ensures AtMost(w[j].at, log[0].at)
      {
        WantedMembers(log[1..], keep, w[j]);
        var k :| 0 <= k < |log[1..]| && log[1..][k] == w[j];
        assert log[k + 1] == w[j];
      }
    }
  }

  // ---- files and log ------------------------------------------------------------------

  lemma {:induction false} SkipMonths(e: DeviceEvent, rest: seq<DeviceEvent>, months: seq<string>)
    requires Month(e) !in months
    ensures ByMonth([e] + rest, months) == ByMonth(rest, months)
  {
    if months != [] {
      SkipMonths(e, rest, months[1..]);
      assert ([e] + rest)[1..] == rest;
    }
  }

  lemma {:induction false} NoneInMonth(log: seq<DeviceEvent>, month: string)
    requires forall e :: e in log ==> Month(e) != month
    ensures InMonth(log, month) == []
  {
    if log != [] { NoneInMonth(log[1..], month); }
  }

  lemma MonthsFall(log: seq<DeviceEvent>)
    requires NewestFirst(log) && log != []
    ensures forall e :: e in log ==> AtMost(Month(e), Month(log[0]))
  {
    hide Less;
    forall e | e in log
      ensures AtMost(Month(e), Month(log[0]))
    {
      var k :| 0 <= k < |log| && log[k] == e;
      if k > 0 {
        HeadMonotone(log[k].at, log[0].at, 7);
      } else {
        Irreflexive(Month(e));
      }
    }
  }

  /** A log in order is put together again from its months, latest month first. */
  lemma {:induction false} MonthsMakeTheLog(log: seq<DeviceEvent>, months: seq<string>)
    requires NewestFirst(log) && StrictlyDown(months)
    requires forall e :: e in log ==> Month(e) in months
    ensures ByMonth(log, months) == log
    decreases |log| + |months|
  {
    hide AtMost, Less, IsUtc, Month;
    if log == [] {
      if months != [] { MonthsMakeTheLog(log, months[1..]); }
    } else {
      var e, rest := log[0], log[1..];
      assert log == [e] + rest;
      assert e in log;
      MonthsFall(log);
      if months[0] == Month(e) {
        forall x | x in months[1..]
          ensures x != Month(e)
        {
          var k :| 0 <= k < |months[1..]| && months[1..][k] == x;
          assert months[k + 1] == x;
          Asymmetric(x, months[0]);
        }
        MonthsMakeTheLog(rest, months);
        SkipMonths(e, rest, months[1..]);
      } else {
        var k :| 0 <= k < |months| && months[k] == Month(e);
        forall x | x in log
          ensures Month(x) != months[0] && Month(x) in months[1..]
        {
          if Month(x) == months[0] { NotBoth(months[k], months[0], Month(x)); }
        }
        NoneInMonth(log, months[0]);
        MonthsMakeTheLog(log, months[1..]);
      }
    }
  }

  lemma NotBoth(a: string, b: string, c: string)
    requires Less(a, b) && AtMost(c, a)
    ensures b != c
  {
  }

  lemma {:induction false} FilesAreMonths(codec: Codec, keep: Filter, dir: Directory, log: seq<DeviceEvent>, months: seq<string>)
    requires Holds(codec, dir, log)
    ensures OffFiles(codec, keep, dir, months) == ByMonth(Wanted(log, keep), months)
  {
    if months != [] {
      FilesAreMonths(codec, keep, dir, log, months[1..]);
      assert MonthEvents(codec, Every, dir, months[0]) == InMonth(log, months[0]);
      MonthFilters(log, keep, months[0]);
      if FileName(months[0]) in dir {
        NewestFilters(codec, keep, Split(dir[FileName(months[0])]));
      }
    }
  }

  /** Reading the files of enough months, latest first, gives the wanted part of the log:
      nothing lost, nothing twice, newest first. */
  lemma FilesGiveTheLog(codec: Codec, keep: Filter, dir: Directory, log: seq<DeviceEvent>, months: seq<string>)
    requires Holds(codec, dir, log) && NewestFirst(log) && StrictlyDown(months)
    requires forall e :: e in log && keep(e) ==> Month(e) in months
    ensures OffFiles(codec, keep, dir, months) == Wanted(log, keep)
  {
    hide AtMost, Less, IsUtc, Month;
    FilesAreMonths(codec, keep, dir, log, months);
    WantedOrdered(log, keep);
    forall e | e in Wanted(log, keep)
      ensures Month(e) in months
    {
      WantedMembers(log, keep, e);
    }
    MonthsMakeTheLog(Wanted(log, keep), months);
  }

  // ---- reading several months ------------------------------------------------------------

  lemma OneMonth(codec: Codec, keep: Filter, dir: Directory, months: seq<string>, i: nat, n: int)
    requires i < |months|
    ensures
      var name := FileName(months[i]);
      var events := if name in dir then Newest(codec, keep, Split(dir[name])) else [];
      var got := Take(events, n);
      Take(OffFiles(codec, keep, dir, months[i..]), n)
      == got + Take(OffFiles(codec, keep, dir, months[i + 1..]), n - |got|)
  {
    assert months[i..][1..] == months[i + 1..];
    TakeConcat(MonthEvents(codec, keep, dir, months[i]), OffFiles(codec, keep, dir, months[i + 1..]), n);
  }

  /** The loop both readers run: month after month until the limit is reached, passing over
      months that have no file. */
  method ReadMonths(codec: Codec, keep: Filter, chunk: nat, dir: Directory, months: seq<string>, limit: int)
    returns (out: seq<DeviceEvent>)
    requires chunk >= 1
    ensures out == Take(OffFiles(codec, keep, dir, months), limit)
  {
    hide Split, Newest, Take, OffFiles, FileName;
    out := [];
    ghost var goal := Take(OffFiles(codec, keep, dir, months), limit);
    var i := 0;
    assert months[0..] == months;
    while i < |months| && |out| < limit
      invariant 0 <= i <= |months|
      invariant goal == out + Take(OffFiles(codec, keep, dir, months[i..]), limit - |out|)
    {
      OneMonth(codec, keep, dir, months, i, limit - |out|);
      var name := FileName(months[i]);
      if name in dir {
        out := ReadBackwards(codec, keep, dir[name], chunk, limit, out);
      } else {
        TakeNone<DeviceEvent>([], limit - |out|);
      }
      i := i + 1;
    }
    NoMonths(codec, keep, dir, months[i..]);
    TakeNone(OffFiles(codec, keep, dir, months[i..]), limit - |out|);
  }

  lemma NoMonths(codec: Codec, keep: Filter, dir: Directory, months: seq<string>)
    ensures months == [] ==> OffFiles(codec, keep, dir, months) == []
  {
  }
}
