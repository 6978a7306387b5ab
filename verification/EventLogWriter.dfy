/** event-log/writer.ts: appends that land in the operating system's buffers, and the
    coalesced fsync that makes them durable. Each step below is one piece of the program
    that runs without interruption, or one completion of the operating system; a run is
    any interleaving of them. */
module EventLogWriter {
  import opened Options
  import opened Ndjson
  import opened EventFiles
  import opened Sequences

  datatype Key = Key(cpId: string, month: string)

  /** A month file and its cached handle: what is in the file, how much of it is on disk for
      certain, how much of it belongs to appends that have resolved, and the dirty flag. */
  datatype File = File(content: string, durable: nat, resolved: nat, dirty: bool)

  datatype Write = Write(key: Key, event: DeviceEvent)
  datatype Landing = Landing(key: Key, end: nat)
  /** An fsync in flight: it covers the file as it was when flush number `flush` asked for it. */
  datatype Sync = Sync(key: Key, covers: nat, flush: nat)

  /** `history` lists the writes that have landed, newest first. */
  datatype State = State(files: map<Key, File>, submitted: seq<Write>, landed: seq<Landing>,
                         syncs: seq<Sync>, history: seq<Write>)

  const Start := State(map[], [], [], [], [])

  /** JSON, and the Date parser: the UTC month of a timestamp, None when it does not parse. */
  datatype Library = Library(codec: Codec, monthOf: string -> Option<string>) {
    ghost predicate Sound() {
      codec.Sound() && forall at :: IsUtc(at) ==> monthOf(at) == Some(at[..7])
    }
  }

  datatype Step =
    | Submit(cpId: string, event: DeviceEvent, nowMonth: string)
    | Land(i: nat)
    | WriteFails(i: nat)
    | Resolve(i: nat)
    | Flush(flush: nat, order: seq<Key>)
    | SyncDone(i: nat)
    | SyncFails(i: nat)

  function FileAt(s: State, key: Key): File {
    if key in s.files then s.files[key] else File("", 0, 0, false)
  }

  function MonthFor(lib: Library, at: string, nowMonth: string): string {
    match lib.monthOf(at)
    case Some(m) => m
    case None => nowMonth
  }

  function Line(lib: Library, e: DeviceEvent): string {
    lib.codec.encode(e) + "\n"
  }

  function Submitted(lib: Library, s: State, cpId: string, e: DeviceEvent, nowMonth: string): State {
    var key := Key(cpId, MonthFor(lib, e.at, nowMonth));
    s.(files := s.files[key := FileAt(s, key)], submitted := s.submitted + [Write(key, e)])
  }

  function Landed(lib: Library, s: State, i: nat): State
    requires i < |s.submitted|
  {
    var w := s.submitted[i];
    var f := FileAt(s, w.key);
    var f' := f.(content := f.content + Line(lib, w.event));
    s.(files := s.files[w.key := f'], submitted := Without(s.submitted, i),
       landed := s.landed + [Landing(w.key, |f'.content|)], history := [w] + s.history)
  }

  function Resolved(s: State, i: nat): State
    requires i < |s.landed|
  {
    var (key, end) := (s.landed[i].key, s.landed[i].end);
    var f := FileAt(s, key);
    s.(files := s.files[key := f.(dirty := true, resolved := if f.resolved < end then end else f.resolved)],
       landed := Without(s.landed, i))
  }

  function FlushOne(s: State, flush: nat, key: Key): State {
    var f := FileAt(s, key);
    if !f.dirty then s
    else s.(files := s.files[key := f.(dirty := false)], syncs := s.syncs + [Sync(key, |f.content|, flush)])
  }

  function FlushAll(s: State, flush: nat, order: seq<Key>): State
    decreases |order|
  {
    if order == [] then s else FlushAll(FlushOne(s, flush, order[0]), flush, order[1..])
  }

  function SyncSettled(s: State, i: nat, ok: bool): State
    requires i < |s.syncs|
  {
    var sync := s.syncs[i];
    var f := FileAt(s, sync.key);
    var f' := if !ok then f.(dirty := true)
              else if f.durable < sync.covers then f.(durable := sync.covers)
              else f;
    s.(files := s.files[sync.key := f'], syncs := Without(s.syncs, i))
  }

  /** One step; a step that names nothing that exists changes nothing. */
  function Next(lib: Library, s: State, step: Step): State {
    match step
    case Submit(cpId, e, nowMonth) => Submitted(lib, s, cpId, e, nowMonth)
    case Land(i) => if i < |s.submitted| then Landed(lib, s, i) else s
    case WriteFails(i) => if i < |s.submitted| then s.(submitted := Without(s.submitted, i)) else s
    case Resolve(i) => if i < |s.landed| then Resolved(s, i) else s
    case Flush(flush, order) => if Enumerates(order, s) then FlushAll(s, flush, order) else s
    case SyncDone(i) => if i < |s.syncs| then SyncSettled(s, i, true) else s
    case SyncFails(i) => if i < |s.syncs| then SyncSettled(s, i, false) else s
  }

  /** A flush visits every cached handle. */
  predicate Enumerates(order: seq<Key>, s: State) {
    forall key :: key in s.files ==> key in order
  }

  function Run(lib: Library, s: State, steps: seq<Step>): State
    decreases |steps|
  {
    if steps == [] then s else Run(lib, Next(lib, s, steps[0]), steps[1..])
  }

  // ---- the class ------------------------------------------------------------------------

  /** The writer with the operating system behind it; each method is one uninterrupted piece. */
  class Writer {
    var files: map<Key, File>
    var submitted: seq<Write>
    var landed: seq<Landing>
    var syncs: seq<Sync>
    ghost var history: seq<Write>
    var stopped: bool

    ghost function View(): State
      reads this
    {
      State(files, submitted, landed, syncs, history)
    }

    constructor ()
      ensures View() == Start && !stopped
    {
      files, submitted, landed, syncs, history, stopped := map[], [], [], [], [], false;
    }

    method OpenFor(key: Key)
      modifies this`files
      ensures files == old(files)[key := FileAt(old(View()), key)]
    {
      if key !in files { files := files[key := File("", 0, 0, false)]; }
    }

    /** append(), up to the moment the line is handed to the operating system. */
    method Append(lib: Library, cpId: string, event: DeviceEvent, nowMonth: string)
      modifies this
      ensures stopped == old(stopped)
      ensures View() == if stopped then old(View()) else Submitted(lib, old(View()), cpId, event, nowMonth)
    {
      if stopped { return; }
      var month := match lib.monthOf(event.at) case Some(m) => m case None => nowMonth;
      OpenFor(Key(cpId, month));
      submitted := submitted + [Write(Key(cpId, month), event)];
    }

    /** append(), after the write has come back. */
    method AppendResolves(i: nat)
      requires i < |landed|
      modifies this
      ensures stopped == old(stopped) && View() == Resolved(old(View()), i)
    {
      var (key, end) := (landed[i].key, landed[i].end);
      var f := if key in files then files[key] else File("", 0, 0, false);
      files := files[key := f.(dirty := true, resolved := if f.resolved < end then end else f.resolved)];
      landed := landed[..i] + landed[i + 1..];
    }

    /** flush(), up to the await: `order` is the order the handle map is walked in. */
    method Flush(flush: nat, order: seq<Key>)
      modifies this`files, this`syncs
      ensures View() == FlushAll(old(View()), flush, order)
    {
      assert order[0..] == order;
      for i := 0 to |order|
        invariant submitted == old(submitted) && landed == old(landed) && history == old(history)
        invariant FlushAll(View(), flush, order[i..]) == FlushAll(old(View()), flush, order)
      {
        assert order[i..][0] == order[i] && order[i..][1..] == order[i + 1..];
        if order[i] in files {
          var f := files[order[i]];
          if f.dirty {
            files := files[order[i] := f.(dirty := false)];
            syncs := syncs + [Sync(order[i], |f.content|, flush)];
          }
        }
      }
      assert order[|order|..] == [];
    }

    /** One fsync of a flush comes back. */
    method FlushResumes(i: nat, ok: bool)
      requires i < |syncs|
      modifies this
      ensures stopped == old(stopped) && View() == SyncSettled(old(View()), i, ok)
    {
      var sync := syncs[i];
      var f := if sync.key in files then files[sync.key] else File("", 0, 0, false);
      if !ok {
        f := f.(dirty := true);
      } else if f.durable < sync.covers {
        f := f.(durable := sync.covers);
      }
      files := files[sync.key := f];
      syncs := syncs[..i] + syncs[i + 1..];
    }

    /** close(), up to its await; a second call does nothing. */
    method Close(flush: nat, order: seq<Key>)
      modifies this
      ensures stopped
      ensures View() == if old(stopped) then old(View()) else FlushAll(old(View()), flush, order)
    {
      if stopped { return; }
      stopped := true;
      Flush(flush, order);
    }
  }

  // ---- group commit ----------------------------------------------------------------------

  ghost predicate Covered(s: State, key: Key, upTo: nat) {
    exists i :: 0 <= i < |s.syncs| && s.syncs[i].key == key && s.syncs[i].covers >= upTo
  }

  /** Every resolved byte of a file is in it, and is durable, or the handle is dirty, or an
      fsync in flight covers it. */
  ghost predicate Kept(s: State, key: Key) {
    var f := FileAt(s, key);
    && f.resolved <= |f.content|
    && (f.resolved <= f.durable || f.dirty || Covered(s, key, f.resolved))
  }

  ghost predicate Safe(s: State) {
    && (forall key :: Kept(s, key))
    && (forall i :: 0 <= i < |s.landed| ==> s.landed[i].end <= |FileAt(s, s.landed[i].key).content|)
  }

  lemma FlushOneSafe(s: State, flush: nat, key: Key)
    requires Safe(s)
    ensures Safe(FlushOne(s, flush, key))
  {
    var s' := FlushOne(s, flush, key);
    if FileAt(s, key).dirty {
      assert s'.syncs[|s.syncs|] == Sync(key, |FileAt(s, key).content|, flush);
      forall k
        ensures Kept(s', k)
      {
        assert Kept(s, k);
        if Covered(s, k, FileAt(s, k).resolved) {
          var i :| 0 <= i < |s.syncs| && s.syncs[i].key == k && s.syncs[i].covers >= FileAt(s, k).resolved;
          assert s'.syncs[i] == s.syncs[i];
        }
      }
    }
  }

  lemma {:induction false} FlushSafe(s: State, flush: nat, order: seq<Key>)
    requires Safe(s)
    ensures Safe(FlushAll(s, flush, order))
    decreases |order|
  {
    if order != [] {
      FlushOneSafe(s, flush, order[0]);
      FlushSafe(FlushOne(s, flush, order[0]), flush, order[1..]);
    }
  }

  lemma SettleSafe(s: State, i: nat, ok: bool)
    requires Safe(s) && i < |s.syncs|
    ensures Safe(SyncSettled(s, i, ok))
  {
    var s' := SyncSettled(s, i, ok);
    WithoutKeeps(s.syncs, i);
    forall k
      ensures Kept(s', k)
    {
      assert Kept(s, k);
      if Covered(s, k, FileAt(s, k).resolved) {
        var j :| 0 <= j < |s.syncs| && s.syncs[j].key == k && s.syncs[j].covers >= FileAt(s, k).resolved;
        if j != i {
          var n :| 0 <= n < |s'.syncs| && s'.syncs[n] == s.syncs[j];
          assert Covered(s', k, FileAt(s, k).resolved);
        }
      }
    }
  }

  lemma AppendSafe(lib: Library, s: State, step: Step)
    requires Safe(s) && (step.Submit? || step.Land? || step.WriteFails? || step.Resolve?)
    ensures Safe(Next(lib, s, step))
  {
    hide Line;
    var s' := Next(lib, s, step);
    if step.Resolve? && step.i < |s.landed| { WithoutKeeps(s.landed, step.i); }
    assert s'.syncs == s.syncs;
    forall k
      ensures Kept(s', k)
    {
      assert Kept(s, k);
      assert forall upTo :: Covered(s, k, upTo) == Covered(s', k, upTo);
    }
    forall i | 0 <= i < |s'.landed|
      ensures s'.landed[i].end <= |FileAt(s', s'.landed[i].key).content|
    {
      assert s'.landed[i] in s'.landed;
      if s'.landed[i] in s.landed {
        var j :| 0 <= j < |s.landed| && s.landed[j] == s'.landed[i];
        assert s.landed[j].end <= |FileAt(s, s.landed[j].key).content|;
      }
    }
  }

  lemma StepSafe(lib: Library, s: State, step: Step)
    requires Safe(s)
    ensures Safe(Next(lib, s, step))
  {
    hide Safe;
    match step
    case Flush(flush, order) => FlushSafe(s, flush, order);
    case SyncDone(i) => if i < |s.syncs| { SettleSafe(s, i, true); }
    case SyncFails(i) => if i < |s.syncs| { SettleSafe(s, i, false); }
    case _ => AppendSafe(lib, s, step);
  }

  /** In every interleaving of appends, flushes and fsync outcomes, no resolved line is ever
      forgotten by the writer. */
  lemma {:induction false} RunSafe(lib: Library, s: State, steps: seq<Step>)
    requires Safe(s)
    ensures Safe(Run(lib, s, steps))
    decreases |steps|
  {
    hide Safe, Next;
    if steps != [] {
      StepSafe(lib, s, steps[0]);
      RunSafe(lib, Next(lib, s, steps[0]), steps[1..]);
    }
  }

  lemma StartSafe()
    ensures Safe(Start)
  {
    assert forall key :: Kept(Start, key);
  }

  // ---- what one flush promises ---------------------------------------------------------------

  /** After flush number `flush` was asked for: no fsync fails and nobody reuses the number. */
  predicate Quiet(steps: seq<Step>, flush: nat) {
    forall i :: 0 <= i < |steps| ==> !steps[i].SyncFails? && !(steps[i].Flush? && steps[i].flush == flush)
  }

  ghost predicate Awaiting(s: State, flush: nat) {
    exists i :: 0 <= i < |s.syncs| && s.syncs[i].flush == flush
  }

  ghost predicate AllDurable(before: State, after: State) {
    forall key :: FileAt(before, key).resolved <= FileAt(after, key).durable
  }

  /** Whatever happens meanwhile, when the flush is over everything resolved before it is durable. */
  ghost predicate Delivers(lib: Library, s: State, flush: nat, order: seq<Key>) {
    forall steps | Quiet(steps, flush) && !Awaiting(Run(lib, FlushAll(s, flush, order), steps), flush) ::
      AllDurable(s, Run(lib, FlushAll(s, flush, order), steps))
  }

  /** Some handle looks clean only because an earlier flush is still waiting for its fsync. */
  ghost predicate Blind(s: State) {
    exists i :: 0 <= i < |s.syncs| &&
      var f := FileAt(s, s.syncs[i].key);
      !f.dirty && f.durable < f.resolved <= s.syncs[i].covers
  }

  ghost predicate Promised(s: State, key: Key, upTo: nat, flush: nat) {
    || upTo <= FileAt(s, key).durable
    || exists i :: 0 <= i < |s.syncs| && s.syncs[i].key == key && s.syncs[i].flush == flush && s.syncs[i].covers >= upTo
  }

  lemma {:induction false} FlushPromises(s: State, flush: nat, order: seq<Key>, key: Key, upTo: nat)
    requires Promised(s, key, upTo, flush) || (FileAt(s, key).dirty && key in order && upTo <= |FileAt(s, key).content|)
    ensures Promised(FlushAll(s, flush, order), key, upTo, flush)
    decreases |order|
  {
    if order != [] {
      var s' := FlushOne(s, flush, order[0]);
      if Promised(s, key, upTo, flush) {
        if upTo > FileAt(s, key).durable {
          var i :| 0 <= i < |s.syncs| && s.syncs[i].key == key && s.syncs[i].flush == flush && s.syncs[i].covers >= upTo;
          assert s'.syncs[i] == s.syncs[i];
        }
        assert Promised(s', key, upTo, flush);
      } else if order[0] == key {
        assert s'.syncs[|s.syncs|] == Sync(key, |FileAt(s, key).content|, flush);
      }
      FlushPromises(s', flush, order[1..], key, upTo);
    }
  }

  lemma StepPromises(lib: Library, s: State, step: Step, key: Key, upTo: nat, flush: nat)
    requires Promised(s, key, upTo, flush) && !step.SyncFails?
    ensures Promised(Next(lib, s, step), key, upTo, flush)
  {
    var s' := Next(lib, s, step);
    match step
    case Flush(other, order) =>
      FlushKeeps(s, other, order, key);
      if Enumerates(order, s) && upTo > FileAt(s, key).durable {
        var i :| 0 <= i < |s.syncs| && s.syncs[i].key == key && s.syncs[i].flush == flush && s.syncs[i].covers >= upTo;
        assert s'.syncs[i] == s.syncs[i];
      }
    case SyncDone(j) =>
      if j < |s.syncs| && upTo > FileAt(s, key).durable {
        var i :| 0 <= i < |s.syncs| && s.syncs[i].key == key && s.syncs[i].flush == flush && s.syncs[i].covers >= upTo;
        if i != j {
          assert s'.syncs[if i < j then i else i - 1] == s.syncs[i];
        }
      }
    case Submit(_, _, _) =>
    case Land(_) =>
    case WriteFails(_) =>
    case Resolve(_) =>
    case SyncFails(_) =>
  }

  lemma {:induction false} FlushKeeps(s: State, flush: nat, order: seq<Key>, key: Key)
    ensures s.syncs <= FlushAll(s, flush, order).syncs
    ensures FileAt(FlushAll(s, flush, order), key).durable == FileAt(s, key).durable
    ensures !FileAt(s, key).dirty ==>
      && FileAt(FlushAll(s, flush, order), key) == FileAt(s, key)
      && forall i :: |s.syncs| <= i < |FlushAll(s, flush, order).syncs| ==> FlushAll(s, flush, order).syncs[i].key != key
    decreases |order|
  {
    if order != [] {
      FlushKeeps(FlushOne(s, flush, order[0]), flush, order[1..], key);
    }
  }

  lemma {:induction false} RunPromises(lib: Library, s: State, steps: seq<Step>, key: Key, upTo: nat, flush: nat)
    requires Promised(s, key, upTo, flush) && Quiet(steps, flush)
    ensures Promised(Run(lib, s, steps), key, upTo, flush)
    decreases |steps|
  {
    hide Promised, Next;
    if steps != [] {
      StepPromises(lib, s, steps[0], key, upTo, flush);
      RunPromises(lib, Next(lib, s, steps[0]), steps[1..], key, upTo, flush);
    }
  }

  /** The fsyncs from position `base` on complete one after the other. */
  function Drain(base: nat, n: nat): seq<Step> {
    if n == 0 then [] else [SyncDone(base)] + Drain(base, n - 1)
  }

  lemma {:induction false} DrainLeaves(lib: Library, s: State, base: nat, key: Key, flush: nat)
    requires base <= |s.syncs| && forall i :: base <= i < |s.syncs| ==> s.syncs[i].key != key
    ensures Quiet(Drain(base, |s.syncs| - base), flush)
    ensures var s' := Run(lib, s, Drain(base, |s.syncs| - base));
      s'.syncs == s.syncs[..base] && FileAt(s', key) == FileAt(s, key)
    decreases |s.syncs| - base
  {
    if base < |s.syncs| {
      var s' := Next(lib, s, SyncDone(base));
      DrainLeaves(lib, s', base, key, flush);
      assert Drain(base, |s.syncs| - base)[0] == SyncDone(base);
      assert Drain(base, |s.syncs| - base)[1..] == Drain(base, |s'.syncs| - base);
      assert s'.syncs[..base] == s.syncs[..base];
    }
  }

  /** flush() waits only for the fsyncs it started itself. It therefore keeps its promise, in
      every interleaving without a failing fsync, exactly when no handle looks clean because
      of an earlier flush that is still waiting. */
  lemma FlushDeliversIff(lib: Library, s: State, flush: nat, order: seq<Key>)
    requires Safe(s) && Enumerates(order, s) && !Awaiting(s, flush)
    ensures Delivers(lib, s, flush, order) <==> !Blind(s)
  {
    hide Next, Promised;
    var s0 := FlushAll(s, flush, order);
    if Blind(s) {
      var i :| 0 <= i < |s.syncs| &&
        var f := FileAt(s, s.syncs[i].key);
        !f.dirty && f.durable < f.resolved <= s.syncs[i].covers;
      var key := s.syncs[i].key;
      FlushKeeps(s, flush, order, key);
      DrainLeaves(lib, s0, |s.syncs|, key, flush);
      var steps := Drain(|s.syncs|, |s0.syncs| - |s.syncs|);
      var s1 := Run(lib, s0, steps);
      assert s1.syncs == s.syncs;
      assert !AllDurable(s, s1);
    } else {
      forall steps, key | Quiet(steps, flush) && !Awaiting(Run(lib, s0, steps), flush)
        ensures FileAt(s, key).resolved <= FileAt(Run(lib, s0, steps), key).durable
      {
        FlushReaches(lib, s, flush, order, steps, key);
      }
    }
  }

  lemma FlushReaches(lib: Library, s: State, flush: nat, order: seq<Key>, steps: seq<Step>, key: Key)
    requires Safe(s) && Enumerates(order, s) && !Blind(s)
    requires Quiet(steps, flush) && !Awaiting(Run(lib, FlushAll(s, flush, order), steps), flush)
    ensures FileAt(s, key).resolved <= FileAt(Run(lib, FlushAll(s, flush, order), steps), key).durable
  {
    hide Run, FlushAll;
    var f := FileAt(s, key);
    assert Kept(s, key);
    FlushPromises(s, flush, order, key, f.resolved);
    RunPromises(lib, FlushAll(s, flush, order), steps, key, f.resolved, flush);
  }

  /** The two flushes of the timer and of a caller: the second returns while the first fsync is
      still out, and the line is not on disk. */
  lemma SecondFlushReturnsEarly(lib: Library, e: DeviceEvent)
    requires lib.codec.Sound()
    ensures
      var key := Key("cp", MonthFor(lib, e.at, "2026-01"));
      var s := Run(lib, Start, [Submit("cp", e, "2026-01"), Land(0), Resolve(0), Flush(1, [key])]);
      && Safe(s) && !Awaiting(FlushAll(s, 2, [key]), 2)
      && FileAt(FlushAll(s, 2, [key]), key).durable == 0 < FileAt(s, key).resolved
  {
    var key := Key("cp", MonthFor(lib, e.at, "2026-01"));
    var steps := [Submit("cp", e, "2026-01"), Land(0), Resolve(0), Flush(1, [key])];
    StartSafe();
    RunSafe(lib, Start, steps);
    var s1 := Next(lib, Start, steps[0]);
    var s2 := Next(lib, s1, Land(0));
    var s3 := Next(lib, s2, Resolve(0));
    var s4 := Next(lib, s3, Flush(1, [key]));
    assert s1.submitted == [Write(key, e)] && s2.landed == [Landing(key, |Line(lib, e)|)];
    assert FileAt(s3, key).dirty && FlushAll(s3, 1, [key]) == FlushAll(FlushOne(s3, 1, key), 1, []);
    assert steps[1..] == [Land(0), Resolve(0), Flush(1, [key])];
    assert steps[1..][1..] == [Resolve(0), Flush(1, [key])];
    assert steps[1..][1..][1..] == [Flush(1, [key])];
    assert Run(lib, Start, steps) == Run(lib, s1, steps[1..]) == Run(lib, s2, steps[1..][1..])
        == Run(lib, s3, steps[1..][1..][1..]) == s4;
    assert FlushAll(s4, 2, [key]) == FlushAll(FlushOne(s4, 2, key), 2, []) == s4;
  }

  // ---- what each step does to a file ------------------------------------------------------------------

  function Max(a: nat, b: nat): nat {
    if a < b then b else a
  }

  /** The queue without its i-th member. */
  predicate Taken<T(==)>(before: seq<T>, i: nat, after: seq<T>) {
    i < |before| && after == before[..i] + before[i + 1..]
  }

  /** A flush leaves the file clean and, if it was dirty, waits for one fsync of all its content; else for none. */
  ghost predicate Flushes(s: State, s': State, flush: nat, key: Key) {
    var (f, f') := (FileAt(s, key), FileAt(s', key));
    && f' == f.(dirty := false) && s.syncs <= s'.syncs
    && (f.dirty <==> Sync(key, |f.content|, flush) in s'.syncs[|s.syncs|..])
    && forall sync :: sync in s'.syncs[|s.syncs|..] && sync.key == key ==> sync == Sync(key, |f.content|, flush)
  }

  /** What a step does to the file of `key` and to the three queues. */
  ghost predicate StepDoes(lib: Library, s: State, s': State, step: Step, key: Key) {
    var (f, f') := (FileAt(s, key), FileAt(s', key));
    match step
    case Submit(cpId, e, nowMonth) =>
      var own := Key(cpId, if lib.monthOf(e.at).Some? then lib.monthOf(e.at).value else nowMonth);
      f' == f && s'.submitted == s.submitted + [Write(own, e)] && s'.files.Keys == s.files.Keys + {own}
    case Land(i) =>
      i < |s.submitted| ==>
        && Taken(s.submitted, i, s'.submitted)
        && f' == f.(content := f.content + if s.submitted[i].key == key then lib.codec.encode(s.submitted[i].event) + "\n" else "")
        && (s.submitted[i].key == key ==> s'.landed == s.landed + [Landing(key, |f'.content|)])
    case WriteFails(i) => i < |s.submitted| ==> f' == f && Taken(s.submitted, i, s'.submitted) && s'.landed == s.landed
    case Resolve(i) =>
      i < |s.landed| ==>
        && Taken(s.landed, i, s'.landed)
        && f' == if s.landed[i].key == key then f.(dirty := true, resolved := Max(f.resolved, s.landed[i].end)) else f
    case Flush(flush, order) => if forall k :: k in s.files ==> k in order then Flushes(s, s', flush, key) else s' == s
    case SyncDone(i) =>
      i < |s.syncs| ==>
        && Taken(s.syncs, i, s'.syncs)
        && f' == if s.syncs[i].key == key then f.(durable := Max(f.durable, s.syncs[i].covers)) else f
    case SyncFails(i) =>
      i < |s.syncs| ==> Taken(s.syncs, i, s'.syncs) && f' == if s.syncs[i].key == key then f.(dirty := true) else f
  }

  lemma {:induction false} FlushAdds(s: State, flush: nat, order: seq<Key>, key: Key)
    ensures var (f, s') := (FileAt(s, key), FlushAll(s, flush, order));
      && s.syncs <= s'.syncs && FileAt(s', key) == (if key in order then f.(dirty := false) else f)
      && (Sync(key, |f.content|, flush) in s'.syncs[|s.syncs|..] <==> f.dirty && key in order)
      && (forall sync :: sync in s'.syncs[|s.syncs|..] && sync.key == key ==> sync == Sync(key, |f.content|, flush))
    decreases |order|
  {
    if order != [] {
      var s1 := FlushOne(s, flush, order[0]);
      FlushAdds(s1, flush, order[1..], key);
      var s' := FlushAll(s, flush, order);
      assert s'.syncs[|s.syncs|..] == s1.syncs[|s.syncs|..] + s'.syncs[|s1.syncs|..];
      assert key in order <==> key == order[0] || key in order[1..];
    }
  }

  /** Each step of the writer and the operating system: an append hands its line to the file of its own month,
      which it opens; a landed line is at the end of that file; a resolved append marks it dirty and moves
      the resolved mark, never back; a flush cleans each file and syncs the dirty ones; only a
      successful fsync moves the durable mark, never back; a failed one makes the file dirty again. */
  lemma WriterSteps(lib: Library, s: State, step: Step, key: Key)
    ensures StepDoes(lib, s, Next(lib, s, step), step, key)
  {
    match step
    case Flush(flush, order) =>
      FlushAdds(s, flush, order, key);
      hide FlushAll;
    case Land(_) => hide Line; assert forall e :: Line(lib, e) == lib.codec.encode(e) + "\n" by { LineIs(lib); }
    case _ =>
  }

  lemma LineIs(lib: Library)
    ensures forall e :: Line(lib, e) == lib.codec.encode(e) + "\n"
  {
  }

  /** The largest cover of a successful fsync of the file in a run; `before` at its start. */
  function Confirmed(lib: Library, s: State, steps: seq<Step>, key: Key, before: nat): nat
    decreases |steps|
  {
    if steps == [] then before
    else
      var step := steps[0];
      Confirmed(lib, Next(lib, s, step), steps[1..], key,
                if step.SyncDone? && step.i < |s.syncs| && s.syncs[step.i].key == key then Max(before, s.syncs[step.i].covers) else before)
  }

  /** The largest end of an append of the file that resolved in a run. */
  function Acknowledged(lib: Library, s: State, steps: seq<Step>, key: Key, before: nat): nat
    decreases |steps|
  {
    if steps == [] then before
    else
      var step := steps[0];
      Acknowledged(lib, Next(lib, s, step), steps[1..], key,
                   if step.Resolve? && step.i < |s.landed| && s.landed[step.i].key == key then Max(before, s.landed[step.i].end) else before)
  }

  lemma StepMarks(lib: Library, s: State, step: Step, key: Key)
    ensures var (f, f') := (FileAt(s, key), FileAt(Next(lib, s, step), key));
      && f'.durable == (if step.SyncDone? && step.i < |s.syncs| && s.syncs[step.i].key == key then Max(f.durable, s.syncs[step.i].covers)
                        else f.durable)
      && f'.resolved == (if step.Resolve? && step.i < |s.landed| && s.landed[step.i].key == key then Max(f.resolved, s.landed[step.i].end)
                         else f.resolved)
  {
    hide Line;
    if step.Flush? { FlushAdds(s, step.flush, step.order, key); }
  }

  /** Over every run the durable mark of a file is what its successful fsyncs have covered, and the resolved
      mark what its resolved appends have reached. */
  lemma {:induction false} MarksAreEarned(lib: Library, s: State, steps: seq<Step>, key: Key)
    ensures FileAt(Run(lib, s, steps), key).durable == Confirmed(lib, s, steps, key, FileAt(s, key).durable)
    ensures FileAt(Run(lib, s, steps), key).resolved == Acknowledged(lib, s, steps, key, FileAt(s, key).resolved)
    decreases |steps|
  {
    if steps != [] {
      hide Next, FileAt, Max;
      StepMarks(lib, s, steps[0], key);
      MarksAreEarned(lib, Next(lib, s, steps[0]), steps[1..], key);
    }
  }
}
