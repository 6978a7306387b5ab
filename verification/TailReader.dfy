/** event-log/tail.ts: the newest `limit` events of one charger. */
module TailReader {
  import opened Options
  import opened TextOrder
  import opened MonthKeys
  import opened Ndjson
  import opened EventFiles
  import StableSort

  datatype Bounds = Bounds(from: Option<string>, before: Option<string>)

  /** An empty bound is falsy and bounds nothing. */
  predicate InBounds(b: Bounds, e: DeviceEvent) {
    && !(b.from.Some? && b.from.value != "" && Less(e.at, b.from.value))
    && !(b.before.Some? && b.before.value != "" && !Less(e.at, b.before.value))
  }

  function Within(b: Bounds): Filter {
    (e: DeviceEvent) => InBounds(b, e)
  }

  function At(): DeviceEvent -> string {
    (e: DeviceEvent) => e.at
  }

  function Itself(): string -> string {
    (m: string) => m
  }

  function MonthsAmong(entries: seq<string>): seq<string> {
    if entries == [] then []
    else
      var init := MonthsAmong(entries[..|entries| - 1]);
      match MonthFromFilename(entries[|entries| - 1])
      case None => init
      case Some(m) => init + [m]
  }

  lemma {:induction false} MonthsAmongNames(entries: seq<string>, m: string)
    ensures m in MonthsAmong(entries) <==> exists name :: name in entries && MonthFromFilename(name) == Some(m)
  {
    hide MonthFromFilename;
    if entries != [] {
      var n := |entries| - 1;
      MonthsAmongNames(entries[..n], m);
      assert entries == entries[..n] + [entries[n]];
    }
  }

  lemma {:induction false} MonthsDistinct(entries: seq<string>)
    requires forall i, j :: 0 <= i < j < |entries| ==> entries[i] != entries[j]
    ensures forall m :: multiset(MonthsAmong(entries))[m] <= 1
  {
    hide MonthFromFilename;
    if entries != [] {
      var n := |entries| - 1;
      MonthsDistinct(entries[..n]);
      match MonthFromFilename(entries[n])
      case None =>
      case Some(m) =>
        MonthsAmongNames(entries[..n], m);
        if m in MonthsAmong(entries[..n]) {
          var name :| name in entries[..n] && MonthFromFilename(name) == Some(m);
          NameOfMonth(name, m);
          NameOfMonth(entries[n], m);
        }
    }
  }

  lemma NameOfMonth(name: string, m: string)
    requires MonthFromFilename(name) == Some(m)
    ensures name == FileName(m)
  {
    assert name == name[..7] + name[7..];
  }

  lemma MonthHasName(m: string)
    requires IsMonthKey(m)
    ensures MonthFromFilename(FileName(m)) == Some(m)
  {
    var name := FileName(m);
    assert name[..7] == m && name[7..] == ".ndjson";
    assert name[..4] == m[..4] && name[5..7] == m[5..];
  }

  /** readdir gives each file name once, in any order. */
  ghost predicate Lists(entries: seq<string>, dir: Directory) {
    && (forall i, j :: 0 <= i < j < |entries| ==> entries[i] != entries[j])
    && (forall name :: name in entries <==> name in dir)
  }

  method ListMonthsDescending(entries: seq<string>) returns (months: seq<string>)
    ensures months == StableSort.Sort(MonthsAmong(entries), Itself())
  {
    hide MonthFromFilename;
    months := [];
    for i := 0 to |entries|
      invariant months == MonthsAmong(entries[..i])
    {
      assert entries[..i + 1][..i] == entries[..i];
      var m := MonthFromFilename(entries[i]);
      if m.Some? { months := months + [m.value]; }
    }
    assert entries[..|entries|] == entries;
    months := StableSort.Sort(months, Itself());
  }

  lemma NotTwice(s: seq<string>, i: nat, j: nat)
    requires i < j < |s| && multiset(s)[s[i]] <= 1
    ensures s[i] != s[j]
  {
    assert s == s[..i] + [s[i]] + s[i + 1..j] + [s[j]] + s[j + 1..];
  }

  lemma SortedMonthsFall(found: seq<string>, months: seq<string>)
    requires StableSort.Descending(months, Itself()) && multiset(months) == multiset(found)
    requires forall m :: multiset(found)[m] <= 1
    ensures StrictlyDown(months)
  {
    hide Less;
    forall i, j | 0 <= i < j < |months|
      ensures Less(months[j], months[i])
    {
      assert AtMost(Itself()(months[j]), Itself()(months[i]));
      NotTwice(months, i, j);
      Total(months[i], months[j]);
    }
  }

  /** The listing is every month on disk once, latest first. */
  lemma ListedMonths(entries: seq<string>, dir: Directory)
    requires Lists(entries, dir)
    ensures var months := StableSort.Sort(MonthsAmong(entries), Itself());
      && StrictlyDown(months)
      && forall m :: IsMonthKey(m) && FileName(m) in dir ==> m in months
  {
    var found := MonthsAmong(entries);
    var months := StableSort.Sort(found, Itself());
    hide Less, IsMonthKey, MonthFromFilename, MonthsAmong, StableSort.Sort, StableSort.Descending, StrictlyDown;
    StableSort.SortCorrect(found, Itself());
    MonthsDistinct(entries);
    SortedMonthsFall(found, months);
    forall m | IsMonthKey(m) && FileName(m) in dir
      ensures m in months
    {
      MonthHasName(m);
      MonthsAmongNames(entries, m);
      assert m in multiset(found);
    }
  }

  /** What tailLastN computes from the files alone: up to `limit` wanted events off the
      months in descending order, sorted newest first. */
  function TailOf(codec: Codec, keep: Filter, dir: Directory, months: seq<string>, limit: int): seq<DeviceEvent> {
    Take(StableSort.Sort(Take(OffFiles(codec, keep, dir, months), limit), At()), limit)
  }

  method TailLastN(codec: Codec, chunk: nat, dir: Directory, entries: seq<string>, limit: int, bounds: Bounds)
    returns (out: seq<DeviceEvent>)
    requires chunk >= 1 && Lists(entries, dir)
    ensures out == TailOf(codec, Within(bounds), dir, StableSort.Sort(MonthsAmong(entries), Itself()), limit)
  {
    hide OffFiles, Within, StableSort.Sort;
    if limit <= 0 { return []; }
    var months := ListMonthsDescending(entries);
    out := ReadMonths(codec, Within(bounds), chunk, dir, months, limit);
    out := Take(StableSort.Sort(out, At()), limit);
  }

  /** Whatever the files hold, the answer is newest first and no longer than asked. */
  lemma TailIsSorted(codec: Codec, keep: Filter, dir: Directory, months: seq<string>, limit: int)
    ensures
      var out := TailOf(codec, keep, dir, months, limit);
      && StableSort.Descending(out, At())
      && |out| <= (if limit < 0 then 0 else limit)
  {
    StableSort.SortCorrect(Take(OffFiles(codec, keep, dir, months), limit), At());
  }

  /** When the files hold a log in order, tailLastN answers its last `limit` wanted events. */
  lemma TailIsLastN(codec: Codec, keep: Filter, dir: Directory, entries: seq<string>, log: seq<DeviceEvent>, limit: int)
    requires Lists(entries, dir) && Holds(codec, dir, log) && NewestFirst(log)
    ensures TailOf(codec, keep, dir, StableSort.Sort(MonthsAmong(entries), Itself()), limit)
         == Take(Wanted(log, keep), limit)
  {
    hide Less, IsMonthKey, MonthsAmong, Newest, Split;
    var months := StableSort.Sort(MonthsAmong(entries), Itself());
    ListedMonths(entries, dir);
    forall e | e in log && keep(e)
      ensures Month(e) in months
    {
      assert IsUtc(e.at);
      MonthOccurs(log, e);
      assert MonthEvents(codec, Every, dir, Month(e)) == InMonth(log, Month(e)) != [];
    }
    FilesGiveTheLog(codec, keep, dir, log, months);
    WantedOrdered(log, keep);
    var w := Wanted(log, keep);
    assert StableSort.Descending(Take(w, limit), At());
    StableSort.SortStays(Take(w, limit), At());
  }

  /** With room for all, the tail has exactly the events of the log from the first bound on and before the
      second; a bound that is missing or empty bounds nothing. */
  lemma TailFindsIff(codec: Codec, bounds: Bounds, dir: Directory, entries: seq<string>, log: seq<DeviceEvent>, e: DeviceEvent)
    requires Lists(entries, dir) && Holds(codec, dir, log) && NewestFirst(log)
    ensures e in TailOf(codec, Within(bounds), dir, StableSort.Sort(MonthsAmong(entries), Itself()), |log|) <==>
      && e in log
      && (bounds.from == None || bounds.from == Some("") || !Less(e.at, bounds.from.value))
      && (bounds.before == None || bounds.before == Some("") || Less(e.at, bounds.before.value))
  {
    TailIsLastN(codec, Within(bounds), dir, entries, log, |log|);
    WantedMembers(log, Within(bounds), e);
    hide Less, TailOf, MonthsAmong, StableSort.Sort, Holds, NewestFirst, Lists, Wanted;
    WantedIsShorter(log, Within(bounds));
  }

  lemma {:induction false} WantedIsShorter(log: seq<DeviceEvent>, keep: Filter)
    ensures |Wanted(log, keep)| <= |log|
  {
    if log != [] { WantedIsShorter(log[1..], keep); }
  }

  lemma {:induction false} MonthOccurs(log: seq<DeviceEvent>, e: DeviceEvent)
    requires e in log
    ensures e in InMonth(log, Month(e))
  {
    if log[0] != e { MonthOccurs(log[1..], e); }
  }
}
