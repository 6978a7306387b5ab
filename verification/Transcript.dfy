/** apps/web/src/hooks/use-command-transcript.ts: the ring of commands sent to a charger, and
    what pausing it hides and resuming it shows. */
module Transcript {
  import opened Options
  import Sequences

  const RING_CAP := 200

  datatype Phase = Pending | Ok | Failed

  datatype Outcome = Accepted | Rejected | SoftReject | Awaiting | Broken

  datatype Entry = Entry(
    id: nat, startedAt: string, command: string, request: string, phase: Phase, outcome: Outcome,
    response: Option<string>, status: Option<string>, elapsedMs: Option<nat>, error: Option<string>)

  /** A Partial<TranscriptEntry>: None is a field the object literal does not mention. */
  datatype Patch = Patch(
    phase: Option<Phase>, outcome: Option<Outcome>,
    response: Option<string>, status: Option<string>, elapsedMs: Option<nat>, error: Option<string>)

  function Over<T>(patch: Option<T>, value: T): T {
    if patch.Some? then patch.value else value
  }

  function OverOption<T>(patch: Option<T>, value: Option<T>): Option<T> {
    if patch.Some? then patch else value
  }

  /** `{ ...e, ...p }` */
  function Spread(e: Entry, p: Patch): Entry {
    e.(phase := Over(p.phase, e.phase), outcome := Over(p.outcome, e.outcome), response := OverOption(p.response, e.response),
       status := OverOption(p.status, e.status), elapsedMs := OverOption(p.elapsedMs, e.elapsedMs),
       error := OverOption(p.error, e.error))
  }

  /** `later` sets every field that `earlier` sets. */
  predicate Covers(later: Patch, earlier: Patch) {
    && (earlier.phase.Some? ==> later.phase.Some?) && (earlier.outcome.Some? ==> later.outcome.Some?)
    && (earlier.response.Some? ==> later.response.Some?) && (earlier.status.Some? ==> later.status.Some?)
    && (earlier.elapsedMs.Some? ==> later.elapsedMs.Some?) && (earlier.error.Some? ==> later.error.Some?)
  }

  /** Applying only the later of two patches is the same, on every entry, exactly when it covers
      the earlier. */
  lemma CoversExactly(earlier: Patch, later: Patch)
    ensures Covers(later, earlier) <==> forall e :: Spread(Spread(e, earlier), later) == Spread(e, later)
  {
    if !Covers(later, earlier) {
      var e := Untouched(earlier);
      assert Spread(Spread(e, earlier), later) != Spread(e, later);
    }
  }

  /** An entry that differs from what `p` would set, in every field. */
  function Untouched(p: Patch): Entry {
    Entry(0, "", "", "", if p.phase == Some(Ok) then Failed else Ok, if p.outcome == Some(Accepted) then Rejected else Accepted,
      None, None, None, None)
  }

  /** pauseBuffer, a Map in insertion order; its keys are distinct. */
  type Buffer = seq<(nat, Patch)>

  function Patched(id: nat, p: Patch, entries: seq<Entry>): (r: seq<Entry>)
    ensures |r| == |entries|
    ensures forall i :: 0 <= i < |r| ==> r[i] == if entries[i].id == id then Spread(entries[i], p) else entries[i]
  {
    if entries == [] then []
    else [if entries[0].id == id then Spread(entries[0], p) else entries[0]] + Patched(id, p, entries[1..])
  }

  /** Map.set: a key that is present keeps its place. */
  function Put(buffer: Buffer, id: nat, p: Patch): Buffer {
    if buffer == [] then [(id, p)]
    else if buffer[0].0 == id then [(id, p)] + buffer[1..]
    else [buffer[0]] + Put(buffer[1..], id, p)
  }

  function Flushed(buffer: Buffer, entries: seq<Entry>): seq<Entry> {
    if buffer == [] then entries else Flushed(buffer[1..], Patched(buffer[0].0, buffer[0].1, entries))
  }

  datatype Store = Store(entries: seq<Entry>, inFlight: set<string>, paused: bool, buffer: Buffer, nextId: nat)

  const Fresh := Store([], {}, false, [], 1)

  datatype Op =
    | Begin(startedAt: string, command: string, request: string)
    | Complete(id: nat, command: string, patch: Patch)
    | Clear
    | Pause
    | Resume

  function Capped(entries: seq<Entry>): seq<Entry> {
    if |entries| <= RING_CAP then entries else entries[..RING_CAP]
  }

  function NewEntry(id: nat, startedAt: string, command: string, request: string): Entry {
    Entry(id, startedAt, command, request, Pending, Awaiting, None, None, None, None)
  }

  /** dropMethodIfDone */
  function StillInFlight(s: Store, completed: nat, command: string): set<string> {
    if exists e :: e in s.entries && e.id != completed && e.command == command && e.phase == Pending then s.inFlight
    else s.inFlight - {command}
  }

  function Do(s: Store, op: Op): Store {
    match op
    case Begin(startedAt, command, request) =>
      s.(entries := Capped([NewEntry(s.nextId, startedAt, command, request)] + s.entries),
         inFlight := s.inFlight + {command}, nextId := s.nextId + 1)
    case Complete(id, command, patch) =>
      var s' := if s.paused then s.(buffer := Put(s.buffer, id, patch)) else s.(entries := Patched(id, patch, s.entries));
      s'.(inFlight := StillInFlight(s', id, command))
    case Clear => s.(entries := [], buffer := [])
    case Pause => s.(paused := true)
    case Resume => if s.paused then s.(paused := false, entries := Flushed(s.buffer, s.entries), buffer := []) else s
  }

  // ---- the class ----------------------------------------------------------------------------

  datatype Snapshot = Snapshot(entries: seq<Entry>, inFlight: set<string>, paused: bool, bufferedCount: nat)

  class TranscriptStore {
    var entries: seq<Entry>
    var inFlight: set<string>
    var paused: bool
    var pauseBuffer: Buffer
    var nextId: nat
    var snapshot: Snapshot

    function View(): Store
      reads this
    {
      Store(entries, inFlight, paused, pauseBuffer, nextId)
    }

    constructor ()
      ensures View() == Fresh && snapshot == Snapshot(entries, inFlight, paused, |pauseBuffer|)
    {
      entries, inFlight, paused, pauseBuffer, nextId := [], {}, false, [], 1;
      snapshot := Snapshot([], {}, false, 0);
    }

    method Notify()
      modifies this`snapshot
      ensures snapshot == Snapshot(entries, inFlight, paused, |pauseBuffer|)
    {
      snapshot := Snapshot(entries, inFlight, paused, |pauseBuffer|);
    }

    method DropMethodIfDone(completed: nat, command: string)
      modifies this`inFlight
      ensures inFlight == StillInFlight(old(View()), completed, command)
    {
      var i := 0;
      while i < |entries|
        invariant 0 <= i <= |entries| && inFlight == old(inFlight)
        invariant forall k :: 0 <= k < i ==> !(entries[k].id != completed && entries[k].command == command && entries[k].phase == Pending)
      {
        if entries[i].id != completed && entries[i].command == command && entries[i].phase == Pending { return; }
        i := i + 1;
      }
      inFlight := inFlight - {command};
    }

    method BeginCommand(startedAt: string, command: string, request: string) returns (id: nat)
      modifies this
      ensures View() == Do(old(View()), Begin(startedAt, command, request))
      ensures id == old(nextId) && snapshot == Snapshot(entries, inFlight, paused, |pauseBuffer|)
    {
      id := nextId;
      nextId := nextId + 1;
      entries := [NewEntry(id, startedAt, command, request)] + entries;
      if |entries| > RING_CAP { entries := entries[..RING_CAP]; }
      inFlight := inFlight + {command};
      Notify();
    }

    method CompleteCommand(id: nat, command: string, patch: Patch)
      modifies this
      ensures View() == Do(old(View()), Complete(id, command, patch)) && snapshot == Snapshot(entries, inFlight, paused, |pauseBuffer|)
    {
      if paused {
        pauseBuffer := Put(pauseBuffer, id, patch);
        DropMethodIfDone(id, command);
        Notify();
        return;
      }
      entries := Patched(id, patch, entries);
      DropMethodIfDone(id, command);
      Notify();
    }

    method ClearAll()
      modifies this
      ensures View() == Do(old(View()), Clear) && snapshot == Snapshot(entries, inFlight, paused, |pauseBuffer|)
    {
      entries, pauseBuffer := [], [];
      Notify();
    }

    method PauseView()
      requires snapshot == Snapshot(entries, inFlight, paused, |pauseBuffer|)
      modifies this
      ensures View() == Do(old(View()), Pause) && snapshot == Snapshot(entries, inFlight, paused, |pauseBuffer|)
    {
      if paused { return; }
      paused := true;
      Notify();
    }

    method ResumeView()
      requires snapshot == Snapshot(entries, inFlight, paused, |pauseBuffer|)
      modifies this
      ensures View() == Do(old(View()), Resume) && snapshot == Snapshot(entries, inFlight, paused, |pauseBuffer|)
    {
      if !paused { return; }
      paused := false;
      assert pauseBuffer[0..] == pauseBuffer;
      for i := 0 to |pauseBuffer|
        invariant !paused && inFlight == old(inFlight) && pauseBuffer == old(pauseBuffer) && nextId == old(nextId)
        invariant Flushed(pauseBuffer[i..], entries) == old(Flushed(pauseBuffer, entries))
      {
        assert pauseBuffer[i..][0] == pauseBuffer[i] && pauseBuffer[i..][1..] == pauseBuffer[i + 1..];
        entries := Patched(pauseBuffer[i].0, pauseBuffer[i].1, entries);
      }
      assert pauseBuffer[|pauseBuffer|..] == [];
      pauseBuffer := [];
      Notify();
    }
  }

  // ---- runs -------------------------------------------------------------------------------------

  function Run(s: Store, ops: seq<Op>): Store
    decreases |ops|
  {
    if ops == [] then s else Run(Do(s, ops[0]), ops[1..])
  }

  /** The same run by somebody who never pauses. */
  function Erased(ops: seq<Op>): seq<Op> {
    if ops == [] then []
    else if ops[0].Pause? || ops[0].Resume? then Erased(ops[1..])
    else [ops[0]] + Erased(ops[1..])
  }

  predicate Has(buffer: Buffer, id: nat) {
    exists i :: 0 <= i < |buffer| && buffer[i].0 == id
  }

  function Get(buffer: Buffer, id: nat): Patch
    requires Has(buffer, id)
  {
    if buffer[0].0 == id then buffer[0].1 else HasTail(buffer, id); Get(buffer[1..], id)
  }

  lemma HasTail(buffer: Buffer, id: nat)
    requires Has(buffer, id) && buffer[0].0 != id
    ensures Has(buffer[1..], id)
  {
    var i :| 0 <= i < |buffer| && buffer[i].0 == id;
    assert buffer[1..][i - 1].0 == id;
  }

  /** Only issued ids are completed, and an id completed again within one pause is completed by a
      patch that covers the buffered one. */
  predicate Proper(s: Store, ops: seq<Op>)
    decreases |ops|
  {
    ops != [] ==> ProperOp(s, ops[0]) && Proper(Do(s, ops[0]), ops[1..])
  }

  predicate ProperOp(s: Store, op: Op) {
    op.Complete? ==> op.id < s.nextId && (s.paused && Has(s.buffer, op.id) ==> Covers(op.patch, Get(s.buffer, op.id)))
  }

  /** What the buffer holds is about ids already issued, once each, and only while paused. */
  predicate Tidy(s: Store) {
    && (forall i :: 0 <= i < |s.buffer| ==> s.buffer[i].0 < s.nextId)
    && (!s.paused ==> s.buffer == [])
    && Keyed(s.buffer)
  }

  predicate Keyed(buffer: Buffer) {
    buffer != [] ==> !Has(buffer[1..], buffer[0].0) && Keyed(buffer[1..])
  }

  /** The reference `r` is where `s` would be without its pause. */
  predicate Simulates(s: Store, r: Store) {
    r.entries == Flushed(s.buffer, s.entries) && r.nextId == s.nextId && !r.paused && r.buffer == []
  }

  // ---- the buffer ---------------------------------------------------------------------------------

  function Applied(buffer: Buffer, e: Entry): (r: Entry)
    ensures r.id == e.id
  {
    if buffer == [] then e
    else Applied(buffer[1..], if e.id == buffer[0].0 then Spread(e, buffer[0].1) else e)
  }

  /** Flushing works on each entry alone. */
  lemma {:induction false} FlushedIsPointwise(buffer: Buffer, entries: seq<Entry>)
    ensures |Flushed(buffer, entries)| == |entries|
    ensures forall i :: 0 <= i < |entries| ==> Flushed(buffer, entries)[i] == Applied(buffer, entries[i])
  {
    if buffer != [] {
      FlushedIsPointwise(buffer[1..], Patched(buffer[0].0, buffer[0].1, entries));
    }
  }

  lemma {:induction false} UnkeyedIsUntouched(buffer: Buffer, e: Entry)
    requires !Has(buffer, e.id)
    ensures Applied(buffer, e) == e
  {
    if buffer != [] {
      assert buffer[0].0 != e.id;
      forall i | 0 <= i < |buffer[1..]| ensures buffer[1..][i].0 != e.id { assert buffer[1..][i] == buffer[i + 1]; }
      UnkeyedIsUntouched(buffer[1..], e);
    }
  }

  lemma {:induction false} PutKeys(buffer: Buffer, id: nat, p: Patch, x: nat)
    ensures Has(Put(buffer, id, p), x) <==> Has(buffer, x) || x == id
  {
    var buffer' := Put(buffer, id, p);
    if buffer == [] {
      assert buffer'[0].0 == id;
    } else if buffer[0].0 == id {
      assert forall i :: 0 <= i < |buffer| ==> buffer'[i].0 == buffer[i].0;
    } else {
      PutKeys(buffer[1..], id, p, x);
      HasCons(buffer[0], buffer[1..], x);
      HasCons(buffer[0], buffer'[1..], x);
      assert buffer == [buffer[0]] + buffer[1..] && buffer' == [buffer[0]] + buffer'[1..];
    }
  }

  lemma HasCons(first: (nat, Patch), rest: Buffer, x: nat)
    ensures Has([first] + rest, x) <==> first.0 == x || Has(rest, x)
  {
    var all := [first] + rest;
    if first.0 == x { assert all[0].0 == x; }
    if Has(rest, x) {
      var i :| 0 <= i < |rest| && rest[i].0 == x;
      assert all[i + 1].0 == x;
    }
    if Has(all, x) && first.0 != x {
      var i :| 0 <= i < |all| && all[i].0 == x;
      assert rest[i - 1].0 == x;
    }
  }

  lemma {:induction false} PutKeyed(buffer: Buffer, id: nat, p: Patch)
    requires Keyed(buffer)
    ensures Keyed(Put(buffer, id, p))
  {
    if buffer != [] && buffer[0].0 != id {
      PutKeyed(buffer[1..], id, p);
      PutKeys(buffer[1..], id, p, buffer[0].0);
      assert Put(buffer, id, p)[1..] == Put(buffer[1..], id, p);
    }
  }

  /** Setting a key and flushing is flushing and then patching, when the new patch covers the one
      it replaces. */
  lemma {:induction false} PutIsPatchLast(buffer: Buffer, id: nat, p: Patch, e: Entry)
    requires Keyed(buffer) && (Has(buffer, id) ==> Covers(p, Get(buffer, id)))
    ensures Applied(Put(buffer, id, p), e) == if e.id == id then Spread(Applied(buffer, e), p) else Applied(buffer, e)
  {
    if buffer != [] {
      var e1 := if e.id == buffer[0].0 then Spread(e, buffer[0].1) else e;
      if buffer[0].0 == id {
        assert Put(buffer, id, p)[1..] == buffer[1..] && Has(buffer, id) && Get(buffer, id) == buffer[0].1;
        if e.id == id {
          UnkeyedIsUntouched(buffer[1..], e1);
          UnkeyedIsUntouched(buffer[1..], Spread(e, p));
          CoversExactly(buffer[0].1, p);
        }
      } else {
        assert Put(buffer, id, p)[1..] == Put(buffer[1..], id, p);
        HasCons(buffer[0], buffer[1..], id);
        assert buffer == [buffer[0]] + buffer[1..];
        PutIsPatchLast(buffer[1..], id, p, e1);
      }
    }
  }

  // ---- pausing is invisible after resume --------------------------------------------------------------

  lemma BeginSimulated(s: Store, r: Store, op: Op)
    requires Tidy(s) && Simulates(s, r) && op.Begin?
    ensures Simulates(Do(s, op), Do(r, op))
  {
    var e := NewEntry(s.nextId, op.startedAt, op.command, op.request);
    FlushedIsPointwise(s.buffer, s.entries);
    FlushedIsPointwise(s.buffer, Do(s, op).entries);
    UnkeyedIsUntouched(s.buffer, e);
    assert Do(r, op).entries == Flushed(s.buffer, Do(s, op).entries);
  }

  lemma CompleteSimulated(s: Store, r: Store, op: Op)
    requires Tidy(s) && Simulates(s, r) && op.Complete? && ProperOp(s, op)
    ensures Simulates(Do(s, op), Do(r, op))
  {
    if s.paused {
      var buffer' := Put(s.buffer, op.id, op.patch);
      FlushedIsPointwise(s.buffer, s.entries);
      FlushedIsPointwise(buffer', s.entries);
      forall i | 0 <= i < |s.entries|
        ensures Applied(buffer', s.entries[i]) == if s.entries[i].id == op.id then Spread(Applied(s.buffer, s.entries[i]), op.patch) else Applied(s.buffer, s.entries[i])
      {
        PutIsPatchLast(s.buffer, op.id, op.patch, s.entries[i]);
      }
      assert Do(r, op).entries == Flushed(buffer', s.entries);
    }
  }

  lemma DoTidy(s: Store, op: Op)
    requires Tidy(s) && ProperOp(s, op)
    ensures Tidy(Do(s, op))
  {
    if op.Complete? && s.paused {
      PutKeyed(s.buffer, op.id, op.patch);
      var buffer' := Put(s.buffer, op.id, op.patch);
      forall i | 0 <= i < |buffer'|
        ensures buffer'[i].0 < s.nextId
      {
        PutKeys(s.buffer, op.id, op.patch, buffer'[i].0);
      }
    }
  }

  lemma {:induction false} RunSimulated(s: Store, r: Store, ops: seq<Op>)
    requires Tidy(s) && Simulates(s, r) && Proper(s, ops)
    ensures Simulates(Run(s, ops), Run(r, Erased(ops))) && Tidy(Run(s, ops))
    decreases |ops|
  {
    if ops != [] {
      var (op, rest) := (ops[0], ops[1..]);
      DoTidy(s, op);
      match op {
        case Begin(_, _, _) => BeginSimulated(s, r, op);
        case Complete(_, _, _) => CompleteSimulated(s, r, op);
        case Clear =>
        case Pause =>
        case Resume =>
      }
      var r' := if op.Pause? || op.Resume? then r else Do(r, op);
      assert Simulates(Do(s, op), r');
      RunSimulated(Do(s, op), r', rest);
      if !op.Pause? && !op.Resume? {
        assert Erased(ops)[0] == op && Erased(ops)[1..] == Erased(rest);
      }
    }
  }

  /** After a resume, the entries are those of the run that never paused. */
  lemma PausingIsInvisible(ops: seq<Op>)
    requires Proper(Fresh, ops)
    ensures Do(Run(Fresh, ops), Resume).entries == Run(Fresh, Erased(ops)).entries
  {
    RunSimulated(Fresh, Fresh, ops);
  }

  // ---- completing each id once --------------------------------------------------------------------------

  function Begun(ops: seq<Op>): nat {
    if ops == [] then 0 else (if ops[0].Begin? then 1 else 0) + Begun(ops[1..])
  }

  /** Each completion is of an id that a Begin before it returned, and of no id twice. */
  predicate Once(ops: seq<Op>, nextId: nat, done: set<nat>) {
    ops != [] ==>
      match ops[0]
      case Begin(_, _, _) => Once(ops[1..], nextId + 1, done)
      case Complete(id, _, _) => id < nextId && id !in done && Once(ops[1..], nextId, done + {id})
      case _ => Once(ops[1..], nextId, done)
  }

  lemma {:induction false} OnceIsProper(s: Store, ops: seq<Op>, done: set<nat>)
    requires Once(ops, s.nextId, done) && forall i :: 0 <= i < |s.buffer| ==> s.buffer[i].0 in done
    ensures Proper(s, ops)
    decreases |ops|
  {
    if ops != [] {
      var op := ops[0];
      var done' := if op.Complete? then done + {op.id} else done;
      if op.Complete? && s.paused {
        var buffer' := Put(s.buffer, op.id, op.patch);
        forall i | 0 <= i < |buffer'|
          ensures buffer'[i].0 in done'
        {
          PutKeys(s.buffer, op.id, op.patch, buffer'[i].0);
        }
      }
      OnceIsProper(Do(s, op), ops[1..], done');
    }
  }

  /** The promise of the file: with each id completed at most once, pausing and resuming at any
      moments leaves the entries as if nobody had. */
  lemma PausingIsInvisibleOnce(ops: seq<Op>)
    requires Once(ops, 1, {})
    ensures Do(Run(Fresh, ops), Resume).entries == Run(Fresh, Erased(ops)).entries
  {
    OnceIsProper(Fresh, ops, {});
    PausingIsInvisible(ops);
  }

  /** Two completions of one id within one pause are harmless, whatever was shown before, exactly
      when the second covers the first. */
  lemma TwiceWhilePaused(p1: Patch, p2: Patch)
    ensures Covers(p2, p1) <==>
      forall s: Store, id: nat, command: string :: s.paused && s.buffer == [] && id < s.nextId ==> TwiceAgrees(s, id, command, p1, p2)
  {
    if Covers(p2, p1) {
      forall s: Store, id: nat, command: string | s.paused && s.buffer == [] && id < s.nextId
        ensures TwiceAgrees(s, id, command, p1, p2)
      {
        TwiceCovered(s, id, command, p1, p2);
      }
    } else {
      var e := Untouched(p1);
      var s := Store([e], {}, true, [], 1);
      assert Spread(Spread(e, p1), p2) != Spread(e, p2);
      FlushedIsPointwise([(0, p2)], [e]);
      assert Applied([(0, p2)], e) == Spread(e, p2);
      assert Put(Put([], 0, p1), 0, p2) == [(0, p2)];
      assert Do(Do(Do(s, Complete(0, "", p1)), Complete(0, "", p2)), Resume).entries[0] == Spread(e, p2);
      assert !TwiceAgrees(s, 0, "", p1, p2);
    }
  }

  predicate TwiceAgrees(s: Store, id: nat, command: string, p1: Patch, p2: Patch) {
    Do(Do(Do(s, Complete(id, command, p1)), Complete(id, command, p2)), Resume).entries
    == Patched(id, p2, Patched(id, p1, s.entries))
  }

  lemma TwiceCovered(s: Store, id: nat, command: string, p1: Patch, p2: Patch)
    requires s.paused && s.buffer == [] && Covers(p2, p1)
    ensures TwiceAgrees(s, id, command, p1, p2)
  {
    assert Put([], id, p1) == [(id, p1)] && Put([(id, p1)], id, p2) == [(id, p2)];
    CoversExactly(p1, p2);
    assert Flushed([(id, p2)], s.entries) == Patched(id, p2, s.entries);
  }

  /** It happens: a callback that throws after a good answer completes the id again, with a patch
      that does not mention the response. */
  lemma ThrowingCallbackLosesResponse(response: string, status: string, ms: nat, message: string)
    ensures var ok := Patch(Some(Ok), Some(Accepted), Some(response), Some(status), Some(ms), None);
      var bad := Patch(Some(Failed), Some(Broken), None, Some(message), Some(ms), Some(message));
      var ops := [Begin("", "reset", ""), Pause, Complete(1, "reset", ok), Complete(1, "reset", bad), Resume];
      && |Run(Fresh, ops).entries| == 1 == |Run(Fresh, Erased(ops)).entries|
      && Run(Fresh, ops).entries[0].response == None
      && Run(Fresh, Erased(ops)).entries[0].response == Some(response)
  {
    var ok := Patch(Some(Ok), Some(Accepted), Some(response), Some(status), Some(ms), None);
    var bad := Patch(Some(Failed), Some(Broken), None, Some(message), Some(ms), Some(message));
    var begin := Begin("", "reset", "");
    var e := NewEntry(1, "", "reset", "");
    var s := Store([e], {"reset"}, true, [], 2);
    assert Capped([e] + []) == [e];
    assert Do(Do(Fresh, begin), Pause) == s;
    assert Put(Put([], 1, ok), 1, bad) == [(1, bad)];
    assert Flushed([(1, bad)], [e]) == Patched(1, bad, [e]);
    UnrollRun(Fresh, begin, Pause, Complete(1, "reset", ok), Complete(1, "reset", bad), Resume);
    var erased := Erased([begin, Pause, Complete(1, "reset", ok), Complete(1, "reset", bad), Resume]);
    ErasedOf(begin, Complete(1, "reset", ok), Complete(1, "reset", bad));
    assert erased == [begin, Complete(1, "reset", ok), Complete(1, "reset", bad)];
    var r1 := Do(Fresh, begin);
    assert r1.entries == [e];
    assert Do(Do(r1, Complete(1, "reset", ok)), Complete(1, "reset", bad)).entries == Patched(1, bad, Patched(1, ok, [e]));
    UnrollRun3(Fresh, begin, Complete(1, "reset", ok), Complete(1, "reset", bad));
  }

  lemma UnrollRun(s: Store, a: Op, b: Op, c: Op, d: Op, e: Op)
    ensures Run(s, [a, b, c, d, e]) == Do(Do(Do(Do(Do(s, a), b), c), d), e)
  {
    hide Do;
    assert [a, b, c, d, e][1..] == [b, c, d, e] && [b, c, d, e][1..] == [c, d, e];
    UnrollRun3(Do(Do(s, a), b), c, d, e);
  }

  lemma UnrollRun3(s: Store, c: Op, d: Op, e: Op)
    ensures Run(s, [c, d, e]) == Do(Do(Do(s, c), d), e)
  {
    hide Do;
    assert [c, d, e][1..] == [d, e] && [d, e][1..] == [e] && [e][1..] == [];
    assert Run(Do(Do(s, c), d), [e]) == Run(Do(Do(Do(s, c), d), e), []);
    assert Run(Do(s, c), [d, e]) == Run(Do(Do(s, c), d), [e]);
  }

  lemma ErasedOf(a: Op, c: Op, d: Op)
    requires a.Begin? && c.Complete? && d.Complete?
    ensures Erased([a, Pause, c, d, Resume]) == [a, c, d]
  {
    assert [a, Pause, c, d, Resume][1..] == [Pause, c, d, Resume] && [Pause, c, d, Resume][1..] == [c, d, Resume];
    assert [c, d, Resume][1..] == [d, Resume] && [d, Resume][1..] == [Resume] && [Resume][1..] == [];
    assert Erased([Resume]) == Erased([]);
    assert Erased([d, Resume]) == [d];
    assert Erased([c, d, Resume]) == [c, d];
    assert Erased([Pause, c, d, Resume]) == [c, d];
  }

  // ---- the ring -----------------------------------------------------------------------------------------

  /** The entries are the latest commands, newest first, under consecutive ids. */
  predicate Ring(s: Store) {
    |s.entries| <= RING_CAP && forall i :: 0 <= i < |s.entries| ==> s.entries[i].id == s.nextId as int - 1 - i
  }

  /** How many commands began since the last clear. */
  function SinceClear(ops: seq<Op>, before: nat): nat {
    if ops == [] then before
    else SinceClear(ops[1..], match ops[0] case Begin(_, _, _) => before + 1 case Clear => 0 case _ => before)
  }

  function Min(a: nat, b: nat): nat {
    if a < b then a else b
  }

  /** However often it was paused, the ring holds the last 200 commands since the last clear. */
  lemma {:induction false} RingHoldsTheLatest(s: Store, ops: seq<Op>, before: nat)
    requires Ring(s) && |s.entries| == Min(RING_CAP, before)
    ensures Ring(Run(s, ops)) && |Run(s, ops).entries| == Min(RING_CAP, SinceClear(ops, before))
    ensures Run(s, ops).nextId == s.nextId + Begun(ops)
    decreases |ops|
  {
    if ops != [] {
      var op := ops[0];
      if op.Resume? {
        FlushedIsPointwise(s.buffer, s.entries);
      }
      var before' := match op case Begin(_, _, _) => before + 1 case Clear => 0 case _ => before;
      RingHoldsTheLatest(Do(s, op), ops[1..], before');
    }
  }

  /** The Begin operations of a run, in order; the k-th of them returned id k + 1. */
  function Begins(ops: seq<Op>): seq<Op> {
    if ops == [] then [] else (if ops[0].Begin? then [ops[0]] else []) + Begins(ops[1..])
  }

  predicate Shows(e: Entry, begin: Op) {
    begin.Begin? && e.startedAt == begin.startedAt && e.command == begin.command && e.request == begin.request
  }

  predicate Mine(e: Entry, begins: seq<Op>) {
    1 <= e.id <= |begins| && Shows(e, begins[e.id - 1])
  }

  predicate ShowsItsBegin(s: Store, begins: seq<Op>) {
    s.nextId == |begins| + 1 && forall e :: e in s.entries ==> Mine(e, begins)
  }

  lemma {:induction false} AppliedShows(buffer: Buffer, e: Entry, begins: seq<Op>)
    requires Mine(e, begins)
    ensures Mine(Applied(buffer, e), begins)
  {
    if buffer != [] {
      AppliedShows(buffer[1..], if e.id == buffer[0].0 then Spread(e, buffer[0].1) else e, begins);
    }
  }

  lemma BeginShows(s: Store, op: Op, begins: seq<Op>)
    requires ShowsItsBegin(s, begins) && op.Begin?
    ensures ShowsItsBegin(Do(s, op), begins + [op])
  {
    var first := NewEntry(s.nextId, op.startedAt, op.command, op.request);
    assert (begins + [op])[|begins|] == op && Mine(first, begins + [op]);
    forall e | e in s.entries
      ensures Mine(e, begins + [op])
    {
      assert (begins + [op])[e.id - 1] == begins[e.id - 1];
    }
    hide Mine;
    forall e | e in Do(s, op).entries
      ensures e == first || e in s.entries
    {
    }
  }

  lemma PatchShows(id: nat, p: Patch, entries: seq<Entry>, begins: seq<Op>)
    requires forall e :: e in entries ==> Mine(e, begins)
    ensures forall e :: e in Patched(id, p, entries) ==> Mine(e, begins)
  {
    hide Patched;
    var entries' := Patched(id, p, entries);
    forall i | 0 <= i < |entries'|
      ensures Mine(entries'[i], begins)
    {
      assert entries[i] in entries;
    }
    hide Mine;
  }

  lemma FlushShows(buffer: Buffer, entries: seq<Entry>, begins: seq<Op>)
    requires forall e :: e in entries ==> Mine(e, begins)
    ensures forall e :: e in Flushed(buffer, entries) ==> Mine(e, begins)
  {
    hide *;
    FlushedIsPointwise(buffer, entries);
    var entries' := Flushed(buffer, entries);
    forall i | 0 <= i < |entries'|
      ensures Mine(entries'[i], begins)
    {
      assert entries[i] in entries;
      AppliedShows(buffer, entries[i], begins);
    }
  }

  lemma EntriesShow(s: Store, op: Op, begins: seq<Op>)
    requires ShowsItsBegin(s, begins) && !op.Begin?
    ensures ShowsItsBegin(Do(s, op), begins)
  {
    hide Mine, Patched, Flushed, StillInFlight;
    match op
    case Complete(id, _, patch) => PatchShows(id, patch, s.entries, begins);
    case Resume => FlushShows(s.buffer, s.entries, begins);
    case Clear =>
    case Pause =>
  }

  lemma {:induction false} RunShows(s: Store, ops: seq<Op>, begins: seq<Op>)
    requires ShowsItsBegin(s, begins)
    ensures ShowsItsBegin(Run(s, ops), begins + Begins(ops))
    decreases |ops|
  {
    if ops == [] {
      assert begins + [] == begins;
    } else {
      var (first, rest) := (if ops[0].Begin? then [ops[0]] else [], Begins(ops[1..]));
      assert Begins(ops) == first + rest;
      hide Do, ShowsItsBegin, Begins;
      if ops[0].Begin? {
        BeginShows(s, ops[0], begins);
      } else {
        EntriesShow(s, ops[0], begins);
        assert begins + [] == begins;
      }
      RunShows(Do(s, ops[0]), ops[1..], begins + first);
      Sequences.Regroup(begins, first, rest);
    }
  }

  lemma {:induction false} BeginsCounted(ops: seq<Op>)
    ensures |Begins(ops)| == Begun(ops)
  {
    if ops != [] { BeginsCounted(ops[1..]); }
  }

  /** Entry i is the command begun i places before the last. */
  predicate LatestAt(entries: seq<Entry>, begins: seq<Op>, i: nat)
    requires i < |entries|
  {
    i < |begins| && entries[i].id == |begins| - i && Shows(entries[i], begins[|begins| - 1 - i])
  }

  predicate LatestOf(entries: seq<Entry>, begins: seq<Op>) {
    forall i: nat :: i < |entries| ==> LatestAt(entries, begins, i)
  }

  lemma RingIsLatest(s: Store, begins: seq<Op>)
    requires Ring(s) && ShowsItsBegin(s, begins)
    ensures LatestOf(s.entries, begins)
  {
    forall i: nat | i < |s.entries|
      ensures LatestAt(s.entries, begins, i)
    {
      var e := s.entries[i];
      assert e in s.entries && Mine(e, begins);
      assert e.id - 1 == |begins| - 1 - i;
    }
  }

  /** After every run the ring holds the last 200 commands since the last clear, newest first: entry i
      is the one begun i places before the last, and shows its time, command and request. */
  lemma RingShowsTheLatest(ops: seq<Op>)
    ensures |Run(Fresh, ops).entries| == Min(RING_CAP, SinceClear(ops, 0))
    ensures LatestOf(Run(Fresh, ops).entries, Begins(ops))
  {
    RingHoldsTheLatest(Fresh, ops, 0);
    RunShows(Fresh, ops, []);
    BeginsCounted(ops);
    assert [] + Begins(ops) == Begins(ops);
    RingIsLatest(Run(Fresh, ops), Begins(ops));
  }

  // ---- in flight ------------------------------------------------------------------------------------------

  /** A completion names its entry's command and says how it ended. */
  predicate Honest(s: Store, op: Op) {
    op.Complete? ==>
      && op.patch.phase.Some? && op.patch.phase.value != Pending
      && forall e :: e in s.entries && e.id == op.id ==> e.command == op.command
  }

  predicate HonestRun(s: Store, ops: seq<Op>)
    decreases |ops|
  {
    ops != [] ==> Honest(s, ops[0]) && HonestRun(Do(s, ops[0]), ops[1..])
  }

  predicate Ended(buffer: Buffer) {
    forall i :: 0 <= i < |buffer| ==> buffer[i].1.phase.Some? && buffer[i].1.phase.value != Pending
  }

  /** A command whose entry is pending, and is not merely shown so by the pause, is in flight: its
      form stays disabled. */
  predicate PendingIsInFlight(s: Store) {
    && Ended(s.buffer)
    && forall e :: e in s.entries && e.phase == Pending && !Has(s.buffer, e.id) ==> e.command in s.inFlight
  }

  lemma {:induction false} PutEnded(buffer: Buffer, id: nat, p: Patch)
    requires Ended(buffer) && p.phase.Some? && p.phase.value != Pending
    ensures Ended(Put(buffer, id, p))
  {
    if buffer != [] && buffer[0].0 != id {
      assert Ended(buffer[1..]);
      PutEnded(buffer[1..], id, p);
      assert Put(buffer, id, p) == [buffer[0]] + Put(buffer[1..], id, p);
    }
  }

  lemma {:induction false} AppliedEnds(buffer: Buffer, e: Entry)
    requires Ended(buffer)
    ensures Applied(buffer, e).command == e.command
    ensures Applied(buffer, e).phase == Pending ==> e.phase == Pending && !Has(buffer, e.id)
  {
    if buffer != [] {
      var e1 := if e.id == buffer[0].0 then Spread(e, buffer[0].1) else e;
      assert Ended(buffer[1..]);
      AppliedEnds(buffer[1..], e1);
      HasCons(buffer[0], buffer[1..], e.id);
      assert buffer == [buffer[0]] + buffer[1..];
    }
  }

  lemma PatchedEntry(id: nat, p: Patch, entries: seq<Entry>, e: Entry)
    requires e in Patched(id, p, entries) && p.phase.Some? && p.phase.value != Pending && e.phase == Pending
    ensures e in entries && e.id != id
  {
    hide Patched;
    var i :| 0 <= i < |entries| && Patched(id, p, entries)[i] == e;
    assert entries[i] in entries;
  }

  lemma FlightKept(s: Store, completed: nat, command: string, e: Entry)
    requires e in s.entries && e.phase == Pending && e.id != completed && e.command in s.inFlight
    ensures e.command in StillInFlight(s, completed, command)
  {
  }

  lemma CompleteInFlight(s: Store, op: Op)
    requires PendingIsInFlight(s) && op.Complete? && Honest(s, op)
    ensures PendingIsInFlight(Do(s, op))
  {
    hide StillInFlight, Put, Patched, Has;
    var s' := Do(s, op);
    if s.paused {
      PutEnded(s.buffer, op.id, op.patch);
      forall e | e in s'.entries && e.phase == Pending && !Has(s'.buffer, e.id)
        ensures e.command in s'.inFlight
      {
        PutKeys(s.buffer, op.id, op.patch, e.id);
        FlightKept(s.(buffer := s'.buffer), op.id, op.command, e);
      }
    } else {
      forall e | e in s'.entries && e.phase == Pending && !Has(s'.buffer, e.id)
        ensures e.command in s'.inFlight
      {
        PatchedEntry(op.id, op.patch, s.entries, e);
        FlightKept(s.(entries := s'.entries), op.id, op.command, e);
      }
    }
  }

  lemma ResumeInFlight(s: Store)
    requires PendingIsInFlight(s)
    ensures PendingIsInFlight(Do(s, Resume))
  {
    var s' := Do(s, Resume);
    if s.paused {
      FlushedIsPointwise(s.buffer, s.entries);
      forall e | e in s'.entries && e.phase == Pending
        ensures e.command in s'.inFlight
      {
        var i :| 0 <= i < |s'.entries| && s'.entries[i] == e;
        AppliedEnds(s.buffer, s.entries[i]);
        assert s.entries[i] in s.entries;
      }
    }
  }

  lemma {:induction false} PendingStaysInFlight(s: Store, ops: seq<Op>)
    requires PendingIsInFlight(s) && HonestRun(s, ops)
    ensures PendingIsInFlight(Run(s, ops))
    decreases |ops|
  {
    if ops != [] {
      match ops[0] {
        case Complete(_, _, _) => CompleteInFlight(s, ops[0]);
        case Resume => ResumeInFlight(s);
        case Begin(_, _, _) =>
        case Clear =>
        case Pause =>
      }
      PendingStaysInFlight(Do(s, ops[0]), ops[1..]);
    }
  }

  predicate PendingEntry(s: Store, e: Entry, command: string) {
    e in s.entries && e.command == command && e.phase == Pending
  }

  /** Something visible of this command is still pending. */
  ghost predicate Awaited(s: Store, command: string) {
    exists e :: PendingEntry(s, e, command)
  }

  /** Something visible of this command is still pending, and its completion is not in the buffer. */
  ghost predicate TrulyAwaited(s: Store, command: string) {
    exists e :: PendingEntry(s, e, command) && !Has(s.buffer, e.id)
  }

  lemma ResumedEntries(s: Store)
    requires s.paused
    ensures var s' := Do(s, Resume);
      |s'.entries| == |s.entries| && forall i :: 0 <= i < |s.entries| ==> s'.entries[i] == Applied(s.buffer, s.entries[i])
  {
    FlushedIsPointwise(s.buffer, s.entries);
  }

  lemma AwaitedWasTruly(s: Store, command: string)
    requires s.paused && Ended(s.buffer) && Awaited(Do(s, Resume), command)
    ensures TrulyAwaited(s, command)
  {
    hide Do, Applied, Ended, Has;
    ResumedEntries(s);
    var s' := Do(s, Resume);
    var e :| PendingEntry(s', e, command);
    var i :| 0 <= i < |s'.entries| && s'.entries[i] == e;
    AppliedEnds(s.buffer, s.entries[i]);
    assert PendingEntry(s, s.entries[i], command);
  }

  lemma TrulyAwaitedStays(s: Store, command: string)
    requires s.paused && TrulyAwaited(s, command)
    ensures Awaited(Do(s, Resume), command)
  {
    hide Do, Applied, Has;
    ResumedEntries(s);
    var e :| PendingEntry(s, e, command) && !Has(s.buffer, e.id);
    var i :| 0 <= i < |s.entries| && s.entries[i] == e;
    UnkeyedIsUntouched(s.buffer, e);
    assert Do(s, Resume).entries[i] == e && PendingEntry(Do(s, Resume), e, command);
  }

  lemma AwaitedAfterResume(s: Store, command: string)
    requires s.paused && Ended(s.buffer)
    ensures Awaited(Do(s, Resume), command) <==> TrulyAwaited(s, command)
  {
    hide *;
    if Awaited(Do(s, Resume), command) { AwaitedWasTruly(s, command); }
    if TrulyAwaited(s, command) { TrulyAwaitedStays(s, command); }
  }

  /** No command stays in flight after a resume without a pending entry, exactly when each command in
      flight before it has a pending entry whose completion is not in the buffer. */
  lemma NothingSticksIff(s: Store)
    requires s.paused && Ended(s.buffer)
    ensures var s' := Do(s, Resume);
      (forall c :: c in s'.inFlight ==> Awaited(s', c)) <==> (forall c :: c in s.inFlight ==> TrulyAwaited(s, c))
  {
    assert Do(s, Resume).inFlight == s.inFlight;
    hide Do, Awaited, TrulyAwaited;
    forall c ensures Awaited(Do(s, Resume), c) <==> TrulyAwaited(s, c) { AwaitedAfterResume(s, c); }
  }

  /** After every run that ends in a pause: the commands in flight after the resume are exactly those
      with a pending entry, if and only if each one in flight before it truly has one. */
  lemma InFlightExactIff(ops: seq<Op>)
    requires HonestRun(Fresh, ops) && Run(Fresh, ops).paused
    ensures var (s, s') := (Run(Fresh, ops), Do(Run(Fresh, ops), Resume));
      (forall c :: c in s'.inFlight <==> Awaited(s', c)) <==> (forall c :: c in s.inFlight ==> TrulyAwaited(s, c))
  {
    PendingStaysInFlight(Fresh, ops);
    var s := Run(Fresh, ops);
    NothingSticksIff(s);
    ResumeInFlight(s);
    var s' := Do(s, Resume);
    assert s'.buffer == [];
    forall c | Awaited(s', c)
      ensures c in s'.inFlight
    {
      var e :| PendingEntry(s', e, c);
    }
    hide Run, Do, Awaited, TrulyAwaited;
  }

  /** Beside it, by definition of one step, the completion at which a command gets stuck: while paused, the last completion of a command
      leaves it in flight exactly when another visible entry of it is pending with its own completion
      already in the buffer. */
  lemma LastCompletionSticksIff(s: Store, op: Op)
    requires s.paused && op.Complete? && op.command in s.inFlight
    requires forall e :: PendingEntry(s, e, op.command) && e.id != op.id ==> Has(s.buffer, e.id)
    ensures op.command in Do(s, op).inFlight <==> exists e :: PendingEntry(s, e, op.command) && e.id != op.id && Has(s.buffer, e.id)
  {
  }

  /** The commands begun and not yet completed, by id. */
  function Outstanding(ops: seq<Op>, nextId: nat, out: map<nat, string>): map<nat, string> {
    if ops == [] then out
    else match ops[0]
      case Begin(_, command, _) => Outstanding(ops[1..], nextId + 1, out[nextId := command])
      case Complete(id, _, _) => Outstanding(ops[1..], nextId, out - {id})
      case _ => Outstanding(ops[1..], nextId, out)
  }

  /** Nobody pauses, and each completion is of an outstanding id, names its command and ends it. */
  predicate Fair(ops: seq<Op>, nextId: nat, out: map<nat, string>) {
    ops != [] ==>
      match ops[0]
      case Begin(_, command, _) => Fair(ops[1..], nextId + 1, out[nextId := command])
      case Complete(id, command, patch) =>
        && id in out && out[id] == command && patch.phase.Some? && patch.phase.value != Pending
        && Fair(ops[1..], nextId, out - {id})
      case Clear => Fair(ops[1..], nextId, out)
      case Pause => false
      case Resume => false
  }

  ghost predicate Accounted(s: Store, out: map<nat, string>) {
    && !s.paused && (forall id :: id in out ==> id < s.nextId)
    && (forall e :: e in s.entries ==> e.id < s.nextId && (e.phase == Pending ==> e.id in out && out[e.id] == e.command))
    && (forall c :: c in s.inFlight ==> exists id :: id in out && out[id] == c)
  }

  lemma BeginAccounted(s: Store, op: Op, out: map<nat, string>)
    requires Accounted(s, out) && op.Begin?
    ensures Accounted(Do(s, op), out[s.nextId := op.command])
  {
    var (s', out') := (Do(s, op), out[s.nextId := op.command]);
    forall c | c in s'.inFlight
      ensures exists id :: id in out' && out'[id] == c
    {
      if c == op.command {
        assert out'[s.nextId] == c;
      } else {
        var id :| id in out && out[id] == c;
        assert out'[id] == c;
      }
    }
  }

  lemma CompleteAccounted(s: Store, op: Op, out: map<nat, string>)
    requires Accounted(s, out) && op.Complete? && op.id in out && out[op.id] == op.command
    requires op.patch.phase.Some? && op.patch.phase.value != Pending
    ensures Accounted(Do(s, op), out - {op.id})
  {
    hide Patched;
    var (s', out') := (Do(s, op), out - {op.id});
    forall e | e in s'.entries
      ensures e.id < s'.nextId && (e.phase == Pending ==> e.id in out' && out'[e.id] == e.command)
    {
      var i :| 0 <= i < |s'.entries| && s'.entries[i] == e;
      assert s.entries[i] in s.entries;
    }
    forall c | c in s'.inFlight
      ensures exists id :: id in out' && out'[id] == c
    {
      if c == op.command {
        var e :| e in s'.entries && e.id != op.id && e.command == op.command && e.phase == Pending;
        assert out'[e.id] == c;
      } else {
        var id :| id in out && out[id] == c;
        assert out'[id] == c;
      }
    }
  }

  lemma {:induction false} FairAccounted(s: Store, ops: seq<Op>, out: map<nat, string>)
    requires Accounted(s, out) && Fair(ops, s.nextId, out)
    ensures Accounted(Run(s, ops), Outstanding(ops, s.nextId, out))
    decreases |ops|
  {
    if ops != [] {
      hide Accounted;
      match ops[0] {
        case Begin(_, command, _) =>
          BeginAccounted(s, ops[0], out);
          FairAccounted(Do(s, ops[0]), ops[1..], out[s.nextId := command]);
        case Complete(id, _, _) =>
          CompleteAccounted(s, ops[0], out);
          FairAccounted(Do(s, ops[0]), ops[1..], out - {id});
        case Clear =>
          ClearAccounted(s, out);
          FairAccounted(Do(s, Clear), ops[1..], out);
      }
    }
  }

  lemma ClearAccounted(s: Store, out: map<nat, string>)
    requires Accounted(s, out)
    ensures Accounted(Do(s, Clear), out)
  {
  }

  /** It takes a pause: in every run without one, a command in flight has a completion still to come. */
  lemma NeverPausedNeverSticks(ops: seq<Op>, command: string)
    requires Fair(ops, 1, map[]) && command in Run(Fresh, ops).inFlight
    ensures exists id :: id in Outstanding(ops, 1, map[]) && Outstanding(ops, 1, map[])[id] == command
  {
    FairAccounted(Fresh, ops, map[]);
  }

  /** The other half fails: two commands of one kind that both end during a pause leave the form
      disabled after the resume, with nothing pending. */
  lemma InFlightCanStick(command: string, p: Patch)
    requires p.phase == Some(Ok)
    ensures var ops := [Begin("", command, ""), Begin("", command, ""), Pause, Complete(1, command, p), Complete(2, command, p)];
      var s := Do(Run(Fresh, ops), Resume);
      command in s.inFlight && forall e :: e in s.entries ==> e.phase != Pending
  {
    UnrollRun(Fresh, Begin("", command, ""), Begin("", command, ""), Pause, Complete(1, command, p), Complete(2, command, p));
    TwoBegun(command);
    hide Do, Run;
    TwoEnd(command, p);
  }

  lemma TwoBegun(command: string)
    ensures var (e1, e2) := (NewEntry(1, "", command, ""), NewEntry(2, "", command, ""));
      Do(Do(Do(Fresh, Begin("", command, "")), Begin("", command, "")), Pause) == Store([e2, e1], {command}, true, [], 3)
  {
    var (e1, e2) := (NewEntry(1, "", command, ""), NewEntry(2, "", command, ""));
    assert Capped([e1] + []) == [e1] && Capped([e2] + [e1]) == [e2, e1];
    assert Do(Fresh, Begin("", command, "")) == Store([e1], {command}, false, [], 2);
  }

  lemma AppliedPair(a: nat, p: Patch, b: nat, q: Patch, e: Entry)
    requires a != b
    ensures Applied([(a, p), (b, q)], e) == if e.id == a then Spread(e, p) else if e.id == b then Spread(e, q) else e
  {
    assert [(a, p), (b, q)][1..] == [(b, q)];
    var e1 := if e.id == a then Spread(e, p) else e;
    assert Applied([(b, q)], e1) == Applied([], if e1.id == b then Spread(e1, q) else e1);
  }

  lemma TwoEnd(command: string, p: Patch)
    requires p.phase == Some(Ok)
    ensures var (e1, e2) := (NewEntry(1, "", command, ""), NewEntry(2, "", command, ""));
      var s := Store([e2, e1], {command}, true, [], 3);
      var s' := Do(Do(Do(s, Complete(1, command, p)), Complete(2, command, p)), Resume);
      command in s'.inFlight && forall e :: e in s'.entries ==> e.phase != Pending
  {
    var (e1, e2) := (NewEntry(1, "", command, ""), NewEntry(2, "", command, ""));
    var s := Store([e2, e1], {command}, true, [], 3);
    assert e2 in s.entries && e1 in s.entries;
    assert Do(s, Complete(1, command, p)) == s.(buffer := [(1, p)]);
    var buffer := [(1, p), (2, p)];
    assert Put([(1, p)], 2, p) == buffer;
    assert Do(s.(buffer := [(1, p)]), Complete(2, command, p)) == s.(buffer := buffer);
    hide Put;
    FlushedIsPointwise(buffer, s.entries);
    AppliedPair(1, p, 2, p, e1);
    AppliedPair(1, p, 2, p, e2);
  }
}
