/** What the writer puts on disk is what the readers give back. */
module LogRoundTrip {
  import opened Options
  import opened TextOrder
  import opened MonthKeys
  import opened Ndjson
  import opened EventFiles
  import opened EventLogWriter
  import opened Sequences
  import TailReader
  import StableSort

  /** The directory of one charger. */
  function DirectoryOf(s: State, cpId: string): Directory {
    var names := set key | key in s.files && key.cpId == cpId :: FileName(key.month);
    map name | name in names && |name| >= 7 && Key(cpId, name[..|name| - 7]) in s.files
      :: s.files[Key(cpId, name[..|name| - 7])].content
  }

  /** The events of one charger that have reached the log, newest first. */
  function LogOf(history: seq<Write>, cpId: string): seq<DeviceEvent> {
    if history == [] then []
    else if history[0].key.cpId == cpId then [history[0].event] + LogOf(history[1..], cpId)
    else LogOf(history[1..], cpId)
  }

  predicate Closed(content: string) {
    content == "" || content[|content| - 1] == '\n'
  }

  lemma {:induction false} SplitAtNewline(a: string, b: string)
    ensures Split(a + "\n" + b) == Split(a) + Split(b)
  {
    hide Prepend;
    if a == [] {
      assert a + "\n" + b == ['\n'] + b;
      assert (['\n'] + b)[1..] == b;
      assert Prepend('\n', Split(b)) == [""] + Split(b) by { PrependNewline(Split(b)); }
    } else {
      assert (a + "\n" + b)[1..] == a[1..] + "\n" + b;
      SplitAtNewline(a[1..], b);
      PrependConcat(a[0], Split(a[1..]), Split(b));
    }
  }

  lemma PrependNewline(lines: seq<string>)
    requires |lines| >= 1
    ensures Prepend('\n', lines) == [""] + lines
  {
  }

  lemma BlankLine(codec: Codec, lines: seq<string>)
    ensures Newest(codec, Every, lines + [""]) == Newest(codec, Every, lines)
  {
    assert (lines + [""])[..|lines|] == lines;
  }

  lemma OneMoreLine(content: string, text: string) returns (head: seq<string>)
    requires Closed(content) && '\n' !in text
    ensures Split(content) == head + [""]
    ensures Split(content + (text + "\n")) == head + [text, ""]
  {
    hide Split;
    SplitOneLine(text);
    SplitOneLine("");
    SplitAtNewline(text, "");
    assert text + "\n" + "" == text + "\n";
    if content == "" {
      head := [];
      assert content + (text + "\n") == text + "\n";
    } else {
      var a := content[..|content| - 1];
      head := Split(a);
      SplitAtNewline(a, "");
      SplitAtNewline(a, text + "\n");
      assert content == a + "\n" + "" && content + (text + "\n") == a + "\n" + (text + "\n");
    }
  }

  lemma NewestOfAppended(codec: Codec, head: seq<string>, text: string, e: DeviceEvent)
    requires text != "" && codec.parse(text) == Some(e)
    ensures Newest(codec, Every, head + [text, ""]) == [e] + Newest(codec, Every, head + [""])
  {
    BlankLine(codec, head);
    BlankLine(codec, head + [text]);
    assert head + [text, ""] == (head + [text]) + [""];
    assert (head + [text])[..|head|] == head;
  }

  /** Appending an encoded event to a file that ends in a newline adds it as the newest event. */
  lemma AppendedLine(lib: Library, content: string, e: DeviceEvent)
    requires lib.codec.Sound() && Closed(content)
    ensures Closed(content + Line(lib, e))
    ensures Newest(lib.codec, Every, Split(content + Line(lib, e)))
         == [e] + Newest(lib.codec, Every, Split(content))
  {
    hide Split, Newest;
    var text := lib.codec.encode(e);
    assert lib.codec.parse(text) == Some(e);
    var head := OneMoreLine(content, text);
    NewestOfAppended(lib.codec, head, text, e);
  }

  ghost predicate FileHolds(lib: Library, s: State, key: Key) {
    var content := FileAt(s, key).content;
    && Closed(content)
    && Newest(lib.codec, Every, Split(content)) == InMonth(LogOf(s.history, key.cpId), key.month)
  }

  predicate Filed(w: Write) {
    IsUtc(w.event.at) && w.key.month == Month(w.event)
  }

  ghost predicate Consistent(lib: Library, s: State) {
    && (forall i :: 0 <= i < |s.submitted| ==> Filed(s.submitted[i]))
    && (forall key :: FileHolds(lib, s, key))
  }

  predicate UtcStep(step: Step) {
    step.Submit? ==> IsUtc(step.event.at)
  }

  lemma {:induction false} FlushKeepsContent(s: State, flush: nat, order: seq<Key>, key: Key)
    ensures FileAt(FlushAll(s, flush, order), key).content == FileAt(s, key).content
    ensures FlushAll(s, flush, order).history == s.history && FlushAll(s, flush, order).submitted == s.submitted
    decreases |order|
  {
    if order != [] { FlushKeepsContent(FlushOne(s, flush, order[0]), flush, order[1..], key); }
  }

  lemma LandConsistent(lib: Library, s: State, i: nat)
    requires lib.Sound() && Consistent(lib, s) && i < |s.submitted|
    ensures Consistent(lib, Landed(lib, s, i))
  {
    hide IsMonthKey, Newest, Split, Closed, Line;
    var (w, s') := (s.submitted[i], Landed(lib, s, i));
    assert s'.history[1..] == s.history;
    forall key
      ensures FileHolds(lib, s', key)
    {
      assert FileHolds(lib, s, key);
      var log := LogOf(s.history, key.cpId);
      assert ([w.event] + log)[1..] == log;
      if key == w.key {
        AppendedLine(lib, FileAt(s, key).content, w.event);
      }
    }
  }

  lemma StepConsistent(lib: Library, s: State, step: Step)
    requires lib.Sound() && Consistent(lib, s) && UtcStep(step)
    ensures Consistent(lib, Next(lib, s, step))
  {
    hide IsMonthKey, Newest, Split, Closed, Line;
    var s' := Next(lib, s, step);
    if step.Land? {
      if step.i < |s.submitted| { LandConsistent(lib, s, step.i); }
    } else {
      forall key
        ensures FileHolds(lib, s', key)
      {
        assert FileHolds(lib, s, key);
        if step.Flush? { FlushKeepsContent(s, step.flush, step.order, key); }
        assert FileAt(s', key).content == FileAt(s, key).content && s'.history == s.history;
      }
      if step.Flush? { FlushKeepsContent(s, step.flush, step.order, Key("", "")); }
    }
  }

  lemma {:induction false} RunConsistent(lib: Library, s: State, steps: seq<Step>)
    requires lib.Sound() && Consistent(lib, s) && forall i :: 0 <= i < |steps| ==> UtcStep(steps[i])
    ensures Consistent(lib, Run(lib, s, steps))
    decreases |steps|
  {
    hide Next, Consistent, UtcStep;
    if steps != [] {
      StepConsistent(lib, s, steps[0]);
      RunConsistent(lib, Next(lib, s, steps[0]), steps[1..]);
    }
  }

  lemma DirectoryHolds(lib: Library, s: State, cpId: string)
    requires Consistent(lib, s)
    ensures Holds(lib.codec, DirectoryOf(s, cpId), LogOf(s.history, cpId))
  {
    hide Newest, InMonth, IsMonthKey;
    var dir := DirectoryOf(s, cpId);
    NothingLeft(lib.codec, Every);
    forall month
      ensures MonthEvents(lib.codec, Every, dir, month) == InMonth(LogOf(s.history, cpId), month)
    {
      var (key, name) := (Key(cpId, month), FileName(month));
      assert FileHolds(lib, s, key);
      assert name[..|name| - 7] == month;
      if name in dir {
        assert dir[name] == s.files[key].content;
      } else {
        assert key !in s.files;
      }
    }
  }

  /** Round trip, for every interleaving of appends, flushes and fsync outcomes over any
      chargers and months: if a charger's events landed in time order, tailLastN gives its last
      `limit` wanted events, newest first. Events of other chargers play no part in the answer. */
  lemma WhatIsWrittenReadsBack(lib: Library, steps: seq<Step>, cpId: string, entries: seq<string>, keep: Filter, limit: int)
    requires lib.Sound() && forall i :: 0 <= i < |steps| ==> UtcStep(steps[i])
    requires Lists(lib, steps, cpId, entries)
    requires NewestFirst(LogOf(Run(lib, Start, steps).history, cpId))
    ensures
      var s := Run(lib, Start, steps);
      var months := StableSort.Sort(TailReader.MonthsAmong(entries), TailReader.Itself());
      TailReader.TailOf(lib.codec, keep, DirectoryOf(s, cpId), months, limit)
      == Take(Wanted(LogOf(s.history, cpId), keep), limit)
  {
    hide Run, Newest, UtcStep, Consistent, TailReader.TailOf;
    assert Consistent(lib, Start) by { StartConsistent(lib); }
    RunConsistent(lib, Start, steps);
    var s := Run(lib, Start, steps);
    DirectoryHolds(lib, s, cpId);
    TailReader.TailIsLastN(lib.codec, keep, DirectoryOf(s, cpId), entries, LogOf(s.history, cpId), limit);
  }

  ghost predicate Lists(lib: Library, steps: seq<Step>, cpId: string, entries: seq<string>) {
    TailReader.Lists(entries, DirectoryOf(Run(lib, Start, steps), cpId))
  }

  lemma StartConsistent(lib: Library)
    ensures Consistent(lib, Start)
  {
    NothingLeft(lib.codec, Every);
    forall key
      ensures FileHolds(lib, Start, key)
    {
      assert LogOf([], key.cpId) == [];
    }
  }

  // ---- from the appends to the answer -----------------------------------------------------------------

  /** The events of one charger among some writes, the last one first. */
  function Backwards(writes: seq<Write>, cpId: string): seq<DeviceEvent> {
    if writes == [] then []
    else
      var (last, before) := (writes[|writes| - 1], writes[..|writes| - 1]);
      Mine(last, cpId) + Backwards(before, cpId)
  }

  function Mine(w: Write, cpId: string): seq<DeviceEvent> {
    if w.key.cpId == cpId then [w.event] else []
  }

  function AppendOf(step: Step, cpId: string): seq<DeviceEvent> {
    if step.Submit? && step.cpId == cpId then [step.event] else []
  }

  /** The events appended for one charger, the last one first. */
  function AppendsOf(steps: seq<Step>, cpId: string): seq<DeviceEvent> {
    if steps == [] then [] else AppendsOf(steps[1..], cpId) + AppendOf(steps[0], cpId)
  }

  /** What is on its way to a charger's files and what has landed there, newest first. */
  function Known(s: State, cpId: string): seq<DeviceEvent> {
    Backwards(s.submitted, cpId) + LogOf(s.history, cpId)
  }

  /** The step lands no write of the charger before an earlier one. */
  predicate LandsFirst(s: State, step: Step, cpId: string) {
    step.Land? && step.i < |s.submitted| && s.submitted[step.i].key.cpId == cpId ==>
      forall k :: 0 <= k < step.i ==> s.submitted[k].key.cpId != cpId
  }

  predicate LandsInOrder(lib: Library, s: State, steps: seq<Step>, cpId: string)
    decreases |steps|
  {
    steps != [] ==> LandsFirst(s, steps[0], cpId) && LandsInOrder(lib, Next(lib, s, steps[0]), steps[1..], cpId)
  }

  predicate Loses(s: State, step: Step, cpId: string) {
    step.WriteFails? && step.i < |s.submitted| && s.submitted[step.i].key.cpId == cpId
  }

  /** No write of the charger fails. */
  predicate LosesNothing(lib: Library, s: State, steps: seq<Step>, cpId: string)
    decreases |steps|
  {
    steps != [] ==> !Loses(s, steps[0], cpId) && LosesNothing(lib, Next(lib, s, steps[0]), steps[1..], cpId)
  }

  lemma {:induction false} BackwardsConcat(a: seq<Write>, b: seq<Write>, cpId: string)
    ensures Backwards(a + b, cpId) == Backwards(b, cpId) + Backwards(a, cpId)
  {
    if b == [] {
      assert a + b == a;
    } else {
      var (last, before) := (b[|b| - 1], b[..|b| - 1]);
      assert (a + b)[..|a + b| - 1] == a + before && (a + b)[|a + b| - 1] == last;
      BackwardsConcat(a, before, cpId);
      Regroup(Mine(last, cpId), Backwards(before, cpId), Backwards(a, cpId));
    }
  }

  lemma BackwardsSplit(writes: seq<Write>, i: nat, cpId: string)
    requires i < |writes|
    ensures Backwards(Without(writes, i), cpId) == Backwards(writes[i + 1..], cpId) + Backwards(writes[..i], cpId)
    ensures Backwards(writes, cpId) == Backwards(writes[i + 1..], cpId) + (Mine(writes[i], cpId) + Backwards(writes[..i], cpId))
  {
    BackwardsConcat(writes[..i], writes[i + 1..], cpId);
    BackwardsConcat(writes[..i + 1], writes[i + 1..], cpId);
    assert writes[..i + 1] + writes[i + 1..] == writes && writes[..i + 1][..i] == writes[..i];
  }

  lemma {:induction false} NoneBackwards(writes: seq<Write>, cpId: string)
    requires forall k :: 0 <= k < |writes| ==> writes[k].key.cpId != cpId
    ensures Backwards(writes, cpId) == []
  {
    if writes != [] { NoneBackwards(writes[..|writes| - 1], cpId); }
  }

  lemma LogOfLanded(w: Write, history: seq<Write>, cpId: string)
    ensures LogOf([w] + history, cpId) == Mine(w, cpId) + LogOf(history, cpId)
  {
    assert ([w] + history)[1..] == history;
  }

  lemma KnownLanded(lib: Library, s: State, i: nat, cpId: string)
    requires i < |s.submitted|
    ensures Known(Landed(lib, s, i), cpId) == Backwards(Without(s.submitted, i), cpId) + LogOf([s.submitted[i]] + s.history, cpId)
    ensures Known(s, cpId) == Backwards(s.submitted, cpId) + LogOf(s.history, cpId)
  {
    hide Backwards, LogOf, Without, Line, FileAt;
  }

  lemma MoveOver<T>(a: seq<T>, m: seq<T>, b: seq<T>, c: seq<T>)
    requires m == [] || b == []
    ensures a + (m + b) + c == a + b + (m + c)
  {
    if m == [] {
      assert m + b == b && m + c == c;
    } else {
      assert m + b == m && a + b == a;
    }
  }

  lemma LandKnown(lib: Library, s: State, i: nat, cpId: string)
    requires i < |s.submitted| && LandsFirst(s, Land(i), cpId)
    ensures Known(Landed(lib, s, i), cpId) == Known(s, cpId)
  {
    var (w, newer, older) := (s.submitted[i], s.submitted[i + 1..], s.submitted[..i]);
    if w.key.cpId == cpId { NoneBackwards(older, cpId); }
    assert Mine(w, cpId) == [] || Backwards(older, cpId) == [] by { hide Backwards; }
    hide *;
    KnownLanded(lib, s, i, cpId);
    BackwardsSplit(s.submitted, i, cpId);
    LogOfLanded(w, s.history, cpId);
    MoveOver(Backwards(newer, cpId), Mine(w, cpId), Backwards(older, cpId), LogOf(s.history, cpId));
  }

  /** A step adds the event it appends; only a failing write takes one away. */
  lemma StepKnown(lib: Library, s: State, step: Step, cpId: string)
    requires LandsFirst(s, step, cpId) && !Loses(s, step, cpId)
    ensures Known(Next(lib, s, step), cpId) == AppendOf(step, cpId) + Known(s, cpId)
  {
    hide Backwards;
    match step
    case Submit(_, e, nowMonth) =>
      var w := Write(Key(step.cpId, MonthFor(lib, e.at, nowMonth)), e);
      BackwardsSplit(s.submitted + [w], |s.submitted|, cpId);
      assert (s.submitted + [w])[|s.submitted| + 1..] == [] && (s.submitted + [w])[..|s.submitted|] == s.submitted;
      NoneBackwards([], cpId);
    case Land(i) => if i < |s.submitted| { LandKnown(lib, s, i, cpId); }
    case WriteFails(i) => if i < |s.submitted| { BackwardsSplit(s.submitted, i, cpId); }
    case Flush(flush, order) => FlushKeepsContent(s, flush, order, Key("", ""));
    case _ =>
  }

  lemma LossParts(lib: Library, s: State, step: Step, cpId: string)
    returns (after: seq<DeviceEvent>, e: DeviceEvent, before: seq<DeviceEvent>)
    requires Loses(s, step, cpId)
    ensures Known(s, cpId) == after + [e] + before && Known(Next(lib, s, step), cpId) == after + before
  {
    hide Backwards, LogOf;
    BackwardsSplit(s.submitted, step.i, cpId);
    var (newer, older) := (Backwards(s.submitted[step.i + 1..], cpId), Backwards(s.submitted[..step.i], cpId));
    var log := LogOf(s.history, cpId);
    after, e, before := newer, s.submitted[step.i].event, older + log;
    hide *;
    Regroup(newer, [e], older);
    Regroup(newer + [e], older, log);
    Regroup(newer, older, log);
  }

  lemma LossKeepsOrder(lib: Library, s: State, step: Step, cpId: string, later: seq<DeviceEvent>)
    requires Loses(s, step, cpId) && NewestFirst(later + Known(s, cpId))
    ensures NewestFirst(later + Known(Next(lib, s, step), cpId))
  {
    hide *;
    var after, e, before := LossParts(lib, s, step, cpId);
    Regroup(later, after + [e], before);
    Regroup(later, after, [e]);
    Regroup(later, after, before);
    OneLess(later + after, e, before);
  }

  lemma OneLess(a: seq<DeviceEvent>, e: DeviceEvent, b: seq<DeviceEvent>)
    requires NewestFirst(a + [e] + b)
    ensures NewestFirst(a + b)
  {
    hide IsUtc;
    var (log, less) := (a + [e] + b, a + b);
    forall i | 0 <= i < |less| ensures less[i] == log[if i < |a| then i else i + 1] {}
  }

  /** Appends in time order whose writes land in order leave a log in time order; and without a failed
      write, what is on its way and what has landed are all the appends. */
  lemma {:induction false} AppendsAreKnown(lib: Library, s: State, steps: seq<Step>, cpId: string)
    requires LandsInOrder(lib, s, steps, cpId) && NewestFirst(AppendsOf(steps, cpId) + Known(s, cpId))
    ensures NewestFirst(Known(Run(lib, s, steps), cpId))
    ensures LosesNothing(lib, s, steps, cpId) ==> Known(Run(lib, s, steps), cpId) == AppendsOf(steps, cpId) + Known(s, cpId)
    decreases |steps|
  {
    hide Next, Known, NewestFirst, Loses, LandsFirst, AppendOf;
    if steps == [] {
      assert [] + Known(s, cpId) == Known(s, cpId);
    } else {
      var s' := Next(lib, s, steps[0]);
      Regroup(AppendsOf(steps[1..], cpId), AppendOf(steps[0], cpId), Known(s, cpId));
      if Loses(s, steps[0], cpId) {
        NothingAppended(s, steps[0], cpId);
        assert AppendsOf(steps[1..], cpId) + [] == AppendsOf(steps[1..], cpId);
        LossKeepsOrder(lib, s, steps[0], cpId, AppendsOf(steps[1..], cpId));
      } else {
        StepKnown(lib, s, steps[0], cpId);
      }
      AppendsAreKnown(lib, s', steps[1..], cpId);
    }
  }

  lemma NothingAppended(s: State, step: Step, cpId: string)
    requires Loses(s, step, cpId)
    ensures AppendOf(step, cpId) == []
  {
  }

  lemma LogIsOrdered(s: State, cpId: string)
    requires NewestFirst(Known(s, cpId))
    ensures NewestFirst(LogOf(s.history, cpId))
  {
    hide IsUtc, Backwards, LogOf;
    var n := |Backwards(s.submitted, cpId)|;
    assert forall i :: 0 <= i < |LogOf(s.history, cpId)| ==> LogOf(s.history, cpId)[i] == Known(s, cpId)[n + i];
  }

  /** The round trip from the appends: if a charger's events are appended in time order and its writes land
      in that order - other chargers', flushes and fsyncs as they please - then tailLastN gives the last
      `limit` wanted ones that have landed. If none of its writes failed, these and the ones still on
      their way are all that was appended. */
  lemma WhatIsAppendedReadsBack(lib: Library, steps: seq<Step>, cpId: string, entries: seq<string>, keep: Filter, limit: int)
    requires lib.Sound() && forall i :: 0 <= i < |steps| ==> UtcStep(steps[i])
    requires Lists(lib, steps, cpId, entries)
    requires NewestFirst(AppendsOf(steps, cpId)) && LandsInOrder(lib, Start, steps, cpId)
    ensures
      var s := Run(lib, Start, steps);
      var months := StableSort.Sort(TailReader.MonthsAmong(entries), TailReader.Itself());
      && TailReader.TailOf(lib.codec, keep, DirectoryOf(s, cpId), months, limit) == Take(Wanted(LogOf(s.history, cpId), keep), limit)
      && (LosesNothing(lib, Start, steps, cpId) ==> AppendsOf(steps, cpId) == Backwards(s.submitted, cpId) + LogOf(s.history, cpId))
  {
    var s := Run(lib, Start, steps);
    assert Known(Start, cpId) == [] && AppendsOf(steps, cpId) + [] == AppendsOf(steps, cpId);
    AppendsAreKnown(lib, Start, steps, cpId);
    LogIsOrdered(s, cpId);
    assert Known(s, cpId) == Backwards(s.submitted, cpId) + LogOf(s.history, cpId);
    hide *;
    WhatIsWrittenReadsBack(lib, steps, cpId, entries, keep, limit);
  }

  // ---- why the order of the writes matters --------------------------------------------------------------

  /** Two appends whose writes land in the other order. */
  function Swapped(cpId: string, older: DeviceEvent, newer: DeviceEvent, nowMonth: string): seq<Step> {
    [Submit(cpId, older, nowMonth), Submit(cpId, newer, nowMonth), Land(1), Land(0)]
  }

  lemma RunCons(lib: Library, s: State, step: Step, rest: seq<Step>)
    ensures Run(lib, s, [step] + rest) == Run(lib, Next(lib, s, step), rest)
  {
    hide Next;
    assert ([step] + rest)[1..] == rest;
  }

  lemma SwappedHistory(lib: Library, cpId: string, older: DeviceEvent, newer: DeviceEvent, nowMonth: string)
    ensures var s := Run(lib, Start, Swapped(cpId, older, newer, nowMonth));
      |s.history| == 2 && s.history[0].event == older && s.history[1].event == newer
      && s.history[0].key.cpId == cpId == s.history[1].key.cpId
  {
    var (a, b, c, d) := (Submit(cpId, older, nowMonth), Submit(cpId, newer, nowMonth), Land(1), Land(0));
    var s1 := Next(lib, Start, a);
    var s2 := Next(lib, s1, b);
    var s3 := Next(lib, s2, c);
    assert s2.submitted[0].event == older && s2.submitted[1].event == newer && |s2.submitted| == 2;
    assert s3.submitted == [s2.submitted[0]];
    hide Next, Run;
    RunCons(lib, Start, a, [b, c, d]);
    RunCons(lib, s1, b, [c, d]);
    RunCons(lib, s2, c, [d]);
    RunCons(lib, s3, d, []);
    assert [a] + [b, c, d] == [a, b, c, d] && [b] + [c, d] == [b, c, d] && [c] + [d] == [c, d] && [d] + [] == [d];
    RunNothing(lib, Next(lib, s3, d));
  }

  lemma RunNothing(lib: Library, s: State)
    ensures Run(lib, s, []) == s
  {
  }

  lemma {:induction false} OnlyMonth(log: seq<DeviceEvent>, months: seq<string>, month: string)
    requires forall e :: e in log ==> Month(e) == month
    requires forall i, j :: 0 <= i < j < |months| ==> months[i] != months[j]
    ensures ByMonth(log, months) == if month in months then log else []
  {
    hide Month;
    if months != [] {
      OnlyMonth(log, months[1..], month);
      if months[0] == month {
        AllInMonth(log, month);
        assert month !in months[1..];
      } else {
        NoneInMonth(log, months[0]);
        assert month in months ==> month in months[1..];
      }
    }
  }

  lemma {:induction false} AllInMonth(log: seq<DeviceEvent>, month: string)
    requires forall e :: e in log ==> Month(e) == month
    ensures InMonth(log, month) == log
  {
    if log != [] { AllInMonth(log[1..], month); }
  }

  lemma DownIsDistinct(months: seq<string>)
    requires StrictlyDown(months)
    ensures forall i, j :: 0 <= i < j < |months| ==> months[i] != months[j]
  {
    forall i, j | 0 <= i < j < |months|
      ensures months[i] != months[j]
    {
      Irreflexive(months[i]);
    }
  }

  /** The tail of a log that lies in one month is what its file holds last, whatever the order. */
  lemma TailOfOneMonth(codec: Codec, dir: Directory, entries: seq<string>, log: seq<DeviceEvent>, month: string)
    requires TailReader.Lists(entries, dir) && Holds(codec, dir, log) && log != [] && IsMonthKey(month)
    requires forall e :: e in log ==> Month(e) == month
    ensures TailReader.TailOf(codec, Every, dir, StableSort.Sort(TailReader.MonthsAmong(entries), TailReader.Itself()), 1) == [log[0]]
  {
    var months := StableSort.Sort(TailReader.MonthsAmong(entries), TailReader.Itself());
    AllInMonth(log, month);
    assert FileName(month) in dir by {
      hide Newest, Split, InMonth;
      assert MonthEvents(codec, Every, dir, month) == InMonth(log, month);
    }
    TailReader.ListedMonths(entries, dir);
    DownIsDistinct(months);
    EveryWanted(log);
    hide *;
    FilesAreMonths(codec, Every, dir, log, months);
    OnlyMonth(log, months, month);
    FirstOnly(codec, dir, months, log);
  }

  lemma {:induction false} EveryWanted(log: seq<DeviceEvent>)
    ensures Wanted(log, Every) == log
  {
    if log != [] { EveryWanted(log[1..]); }
  }

  lemma FirstOnly(codec: Codec, dir: Directory, months: seq<string>, log: seq<DeviceEvent>)
    requires OffFiles(codec, Every, dir, months) == log != []
    ensures TailReader.TailOf(codec, Every, dir, months, 1) == [log[0]]
  {
    hide OffFiles;
    assert Take(log, 1) == [log[0]] == Take([log[0]], 1);
    assert StableSort.Descending([log[0]], TailReader.At());
    StableSort.SortStays([log[0]], TailReader.At());
  }

  /** The writes of one handle are not queued, so nothing in the writer keeps their order. Two events of one
      month that are appended in time order and land in the other: the last event is not in a tail of one. */
  lemma SwappedLandings(lib: Library, cpId: string, older: DeviceEvent, newer: DeviceEvent, nowMonth: string, entries: seq<string>)
    requires lib.Sound() && IsUtc(older.at) && IsUtc(newer.at) && Month(older) == Month(newer) && Less(older.at, newer.at)
    requires Lists(lib, Swapped(cpId, older, newer, nowMonth), cpId, entries)
    ensures
      var steps := Swapped(cpId, older, newer, nowMonth);
      var months := StableSort.Sort(TailReader.MonthsAmong(entries), TailReader.Itself());
      && AppendsOf(steps, cpId) == [newer, older] && NewestFirst([newer, older])
      && TailReader.TailOf(lib.codec, Every, DirectoryOf(Run(lib, Start, steps), cpId), months, 1) == [older]
  {
    var steps := Swapped(cpId, older, newer, nowMonth);
    var s := Run(lib, Start, steps);
    hide *;
    SwappedAppends(cpId, older, newer, nowMonth);
    SwappedSteps(cpId, older, newer, nowMonth);
    SwappedHistory(lib, cpId, older, newer, nowMonth);
    LogOfTwo(s.history, cpId);
    MonthOfUtc(older);
    StartConsistent(lib);
    RunConsistent(lib, Start, steps);
    DirectoryHolds(lib, s, cpId);
    ListsNow(lib, steps, cpId, entries);
    TailOfOneMonth(lib.codec, DirectoryOf(s, cpId), entries, [older, newer], Month(older));
  }

  lemma SwappedSteps(cpId: string, older: DeviceEvent, newer: DeviceEvent, nowMonth: string)
    requires IsUtc(older.at) && IsUtc(newer.at) && Less(older.at, newer.at)
    ensures NewestFirst([newer, older])
    ensures forall i :: 0 <= i < |Swapped(cpId, older, newer, nowMonth)| ==> UtcStep(Swapped(cpId, older, newer, nowMonth)[i])
  {
    hide IsUtc;
    Asymmetric(older.at, newer.at);
  }

  lemma LogOfTwo(history: seq<Write>, cpId: string)
    requires |history| == 2 && history[0].key.cpId == cpId == history[1].key.cpId
    ensures LogOf(history, cpId) == [history[0].event, history[1].event]
  {
    assert history[1..][0] == history[1] && history[1..][1..] == [];
    assert LogOf(history[1..], cpId) == [history[1].event] + LogOf([], cpId);
  }

  lemma ListsNow(lib: Library, steps: seq<Step>, cpId: string, entries: seq<string>)
    requires Lists(lib, steps, cpId, entries)
    ensures TailReader.Lists(entries, DirectoryOf(Run(lib, Start, steps), cpId))
  {
    hide Run, DirectoryOf;
  }

  lemma MonthOfUtc(e: DeviceEvent)
    requires IsUtc(e.at)
    ensures IsMonthKey(Month(e))
  {
  }

  lemma SwappedAppends(cpId: string, older: DeviceEvent, newer: DeviceEvent, nowMonth: string)
    ensures AppendsOf(Swapped(cpId, older, newer, nowMonth), cpId) == [newer, older]
  {
    var steps := Swapped(cpId, older, newer, nowMonth);
    assert steps[1..][1..][1..][1..] == [] && steps[1..][0] == steps[1] && steps[1..][1..][0] == steps[2]
      && steps[1..][1..][1..][0] == steps[3];
    assert AppendsOf(steps[1..][1..][1..][1..], cpId) == [];
    assert AppendsOf(steps[1..][1..][1..], cpId) == [];
    assert AppendsOf(steps[1..][1..], cpId) == [];
    assert AppendsOf(steps[1..], cpId) == [newer];
  }
}
