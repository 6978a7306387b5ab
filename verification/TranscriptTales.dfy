/** What the transcript shows: every field of an entry is what the last of its completions to set it said, and
    the count of waiting completions is that of the commands completed during the pause. */
module TranscriptTales {
  import opened Options
  import opened Transcript

  // ---- what an entry shows ----------------------------------------------------------------------------

  /** What the last patch to set a field set it to; `first` if none did. */
  function LastSet<T>(patches: seq<Patch>, field: Patch -> Option<T>, first: T): T {
    if patches == [] then first
    else
      var last := field(patches[|patches| - 1]);
      if last.Some? then last.value else LastSet(patches[..|patches| - 1], field, first)
  }

  function LastSome<T>(patches: seq<Patch>, field: Patch -> Option<T>): Option<T> {
    if patches == [] then None
    else
      var last := field(patches[|patches| - 1]);
      if last.Some? then last else LastSome(patches[..|patches| - 1], field)
  }

  const Phases: Patch -> Option<Phase> := (p: Patch) => p.phase
  const Outcomes: Patch -> Option<Transcript.Outcome> := (p: Patch) => p.outcome
  const Responses: Patch -> Option<string> := (p: Patch) => p.response
  const Statuses: Patch -> Option<string> := (p: Patch) => p.status
  const Times: Patch -> Option<nat> := (p: Patch) => p.elapsedMs
  const Errors: Patch -> Option<string> := (p: Patch) => p.error

  /** The entry began pending, awaiting and with nothing else, and shows what its completions said. */
  predicate Told(e: Entry, patches: seq<Patch>) {
    && e.phase == LastSet(patches, Phases, Pending) && e.outcome == LastSet(patches, Outcomes, Awaiting)
    && e.response == LastSome(patches, Responses) && e.status == LastSome(patches, Statuses)
    && e.elapsedMs == LastSome(patches, Times) && e.error == LastSome(patches, Errors)
  }

  /** What the completions of one id said, in order. */
  function CompletionsOf(ops: seq<Op>, id: nat): seq<Patch> {
    if ops == [] then []
    else
      var (last, before) := (ops[|ops| - 1], ops[..|ops| - 1]);
      CompletionsOf(before, id) + if last.Complete? && last.id == id then [last.patch] else []
  }

  ghost predicate AllTold(entries: seq<Entry>, ops: seq<Op>) {
    forall e :: e in entries ==> Told(e, CompletionsOf(ops, e.id))
  }

  lemma Retold(e: Entry, patches: seq<Patch>, p: Patch)
    requires Told(e, patches)
    ensures Told(Spread(e, p), patches + [p])
  {
    assert (patches + [p])[..|patches|] == patches && (patches + [p])[|patches|] == p;
  }

  lemma OneMore(done: seq<Op>, op: Op, id: nat)
    ensures CompletionsOf(done + [op], id) == CompletionsOf(done, id) + if op.Complete? && op.id == id then [op.patch] else []
  {
    assert (done + [op])[..|done|] == done && (done + [op])[|done|] == op;
  }

  /** No completion comes before its command. */
  predicate InTurn(ops: seq<Op>, nextId: nat) {
    ops != [] ==>
      && (ops[0].Complete? ==> ops[0].id < nextId)
      && InTurn(ops[1..], if ops[0].Begin? then nextId + 1 else nextId)
  }

  /** Nothing was said of ids still to come, and the entries have ids given out. */
  ghost predicate Quiet(s: Store, done: seq<Op>) {
    && (forall id :: id >= s.nextId ==> CompletionsOf(done, id) == [])
    && forall e :: e in s.entries ==> e.id < s.nextId
  }

  lemma BeginTold(s: Store, op: Op, done: seq<Op>)
    requires !s.paused && op.Begin? && AllTold(s.entries, done) && Quiet(s, done)
    ensures AllTold(Do(s, op).entries, done + [op]) && Quiet(Do(s, op), done + [op])
  {
    hide CompletionsOf, Told;
    var s' := Do(s, op);
    var first := NewEntry(s.nextId, op.startedAt, op.command, op.request);
    FirstTold(first);
    forall id ensures CompletionsOf(done + [op], id) == CompletionsOf(done, id) { OneMore(done, op, id); }
    forall e | e in s'.entries ensures e == first || e in s.entries {}
    assert s'.nextId == s.nextId + 1 && first.id == s.nextId;
    hide Do, NewEntry;
    assert CompletionsOf(done, first.id) == [];
  }

  lemma OneTold(was: Entry, op: Op, done: seq<Op>)
    requires op.Complete? && Told(was, CompletionsOf(done, was.id))
    ensures var e := if was.id == op.id then Spread(was, op.patch) else was;
      Told(e, CompletionsOf(done + [op], e.id)) && e.id == was.id
  {
    hide CompletionsOf, Told, Spread;
    OneMore(done, op, was.id);
    assert CompletionsOf(done, was.id) + [] == CompletionsOf(done, was.id);
    SpreadId(was, op.patch);
    if was.id == op.id { Retold(was, CompletionsOf(done, op.id), op.patch); }
  }

  lemma PatchedTold(entries: seq<Entry>, op: Op, done: seq<Op>, bound: nat)
    requires op.Complete? && AllTold(entries, done) && forall e :: e in entries ==> e.id < bound
    ensures AllTold(Patched(op.id, op.patch, entries), done + [op])
    ensures forall e :: e in Patched(op.id, op.patch, entries) ==> e.id < bound
  {
    var entries' := Patched(op.id, op.patch, entries);
    hide CompletionsOf, Told, Spread;
    forall e | e in entries'
      ensures Told(e, CompletionsOf(done + [op], e.id)) && e.id < bound
    {
      var i :| 0 <= i < |entries'| && entries'[i] == e;
      assert entries[i] in entries;
      hide Patched;
      OneTold(entries[i], op, done);
    }
  }

  lemma CompleteTold(s: Store, op: Op, done: seq<Op>)
    requires !s.paused && op.Complete? && op.id < s.nextId && AllTold(s.entries, done) && Quiet(s, done)
    ensures AllTold(Do(s, op).entries, done + [op]) && Quiet(Do(s, op), done + [op])
  {
    hide CompletionsOf, Told, StillInFlight, Patched, AllTold;
    PatchedTold(s.entries, op, done, s.nextId);
    forall id ensures CompletionsOf(done + [op], id) == CompletionsOf(done, id) + if op.id == id then [op.patch] else [] {
      OneMore(done, op, id);
    }
  }

  lemma SpreadId(e: Entry, p: Patch)
    ensures Spread(e, p).id == e.id
  {
  }

  lemma ClearTold(s: Store, done: seq<Op>)
    requires Quiet(s, done)
    ensures AllTold(Do(s, Clear).entries, done + [Clear]) && Quiet(Do(s, Clear), done + [Clear])
  {
    forall id ensures CompletionsOf(done + [Clear], id) == CompletionsOf(done, id) { OneMore(done, Clear, id); }
    hide CompletionsOf, Told;
  }

  lemma StepTold(s: Store, op: Op, done: seq<Op>)
    requires !s.paused && !op.Pause? && !op.Resume? && (op.Complete? ==> op.id < s.nextId)
    requires AllTold(s.entries, done) && Quiet(s, done)
    ensures AllTold(Do(s, op).entries, done + [op]) && Quiet(Do(s, op), done + [op])
  {
    hide *;
    match op
    case Begin(_, _, _) => BeginTold(s, op, done);
    case Complete(_, _, _) => CompleteTold(s, op, done);
    case Clear => ClearTold(s, done);
  }

  lemma FirstTold(e: Entry)
    requires e.phase == Pending && e.outcome == Awaiting && e.response == None && e.status == None && e.elapsedMs == None && e.error == None
    ensures Told(e, [])
  {
  }

  lemma {:induction false} RunTold(s: Store, ops: seq<Op>, done: seq<Op>)
    requires !s.paused && InTurn(ops, s.nextId) && AllTold(s.entries, done) && Quiet(s, done)
    requires forall op :: op in ops ==> !op.Pause? && !op.Resume?
    ensures AllTold(Run(s, ops).entries, done + ops)
    decreases |ops|
  {
    if ops == [] {
      assert done + [] == done;
    } else {
      assert ops[0] in ops && forall op :: op in ops[1..] ==> op in ops;
      StepTold(s, ops[0], done);
      Unpaused(s, ops[0]);
      hide Do, AllTold, Quiet;
      RunTold(Do(s, ops[0]), ops[1..], done + [ops[0]]);
      assert done + [ops[0]] + ops[1..] == done + ops;
    }
  }

  lemma Unpaused(s: Store, op: Op)
    requires !s.paused && !op.Pause?
    ensures !Do(s, op).paused && Do(s, op).nextId == if op.Begin? then s.nextId + 1 else s.nextId
  {
  }

  lemma {:induction false} ErasedInTurn(s: Store, ops: seq<Op>)
    requires Proper(s, ops)
    ensures InTurn(Erased(ops), s.nextId) && forall op :: op in Erased(ops) ==> !op.Pause? && !op.Resume?
    decreases |ops|
  {
    if ops != [] {
      assert Do(s, ops[0]).nextId == if ops[0].Begin? then s.nextId + 1 else s.nextId;
      hide Do;
      ErasedInTurn(Do(s, ops[0]), ops[1..]);
      var rest := Erased(ops[1..]);
      assert !ops[0].Pause? && !ops[0].Resume? ==> ([ops[0]] + rest)[1..] == rest;
    }
  }

  lemma {:induction false} CompletionsConcat(a: seq<Op>, b: seq<Op>, id: nat)
    ensures CompletionsOf(a + b, id) == CompletionsOf(a, id) + CompletionsOf(b, id)
  {
    if b == [] {
      assert a + b == a;
    } else {
      var (last, before) := (b[|b| - 1], b[..|b| - 1]);
      assert a + b == (a + before) + [last] && b == before + [last];
      CompletionsConcat(a, before, id);
      OneMore(a + before, last, id);
      OneMore(before, last, id);
    }
  }

  lemma {:induction false} ErasedSaysTheSame(ops: seq<Op>, id: nat)
    ensures CompletionsOf(Erased(ops), id) == CompletionsOf(ops, id)
  {
    if ops != [] {
      ErasedSaysTheSame(ops[1..], id);
      assert ops == [ops[0]] + ops[1..];
      CompletionsConcat([ops[0]], ops[1..], id);
      CompletionsConcat([ops[0]], Erased(ops[1..]), id);
      OneMore([], ops[0], id);
      assert [] + [ops[0]] == [ops[0]];
    }
  }

  /** After every run and a resume: each visible entry shows, field by field, what the last of its completions to
      set that field said, however often it was paused in between. */
  lemma EntriesAreTold(ops: seq<Op>)
    requires Proper(Fresh, ops)
    ensures AllTold(Do(Run(Fresh, ops), Resume).entries, ops)
  {
    hide Do, Run, Proper, Told, Erased;
    PausingIsInvisible(ops);
    ErasedInTurn(Fresh, ops);
    RunTold(Fresh, Erased(ops), []);
    var entries := Run(Fresh, Erased(ops)).entries;
    assert [] + Erased(ops) == Erased(ops);
    forall e | e in entries
      ensures Told(e, CompletionsOf(ops, e.id))
    {
      ErasedSaysTheSame(ops, e.id);
    }
  }

  // ---- how many completions wait ----------------------------------------------------------------------

  /** The commands completed since the pause began, or since it was cleared. */
  function Waiting(ops: seq<Op>, paused: bool, ids: set<nat>): set<nat> {
    if ops == [] then ids
    else match ops[0]
      case Begin(_, _, _) => Waiting(ops[1..], paused, ids)
      case Complete(id, _, _) => Waiting(ops[1..], paused, if paused then ids + {id} else ids)
      case Clear => Waiting(ops[1..], paused, {})
      case Pause => Waiting(ops[1..], true, ids)
      case Resume => Waiting(ops[1..], false, {})
  }

  ghost predicate Waits(buffer: Buffer, ids: set<nat>) {
    |buffer| == |ids| && Keyed(buffer) && forall id :: id in ids <==> Has(buffer, id)
  }

  lemma {:induction false} PutSize(buffer: Buffer, id: nat, p: Patch)
    ensures |Put(buffer, id, p)| == |buffer| + if Has(buffer, id) then 0 else 1
  {
    if buffer != [] && buffer[0].0 != id {
      PutSize(buffer[1..], id, p);
      HasCons(buffer[0], buffer[1..], id);
      assert buffer == [buffer[0]] + buffer[1..];
    } else if buffer != [] {
      assert buffer[0].0 == id;
    }
  }

  lemma PutWaits(buffer: Buffer, ids: set<nat>, id: nat, p: Patch)
    requires Waits(buffer, ids)
    ensures Waits(Put(buffer, id, p), ids + {id})
  {
    PutSize(buffer, id, p);
    PutKeyed(buffer, id, p);
    hide Put, Has, Keyed;
    forall x ensures Has(Put(buffer, id, p), x) <==> Has(buffer, x) || x == id { PutKeys(buffer, id, p, x); }
    assert id in ids ==> ids + {id} == ids;
  }

  lemma {:induction false} RunWaits(s: Store, ops: seq<Op>, ids: set<nat>)
    requires Waits(s.buffer, ids) && (!s.paused ==> s.buffer == [] && ids == {})
    ensures Waits(Run(s, ops).buffer, Waiting(ops, s.paused, ids))
    decreases |ops|
  {
    if ops != [] {
      var ids' := match ops[0]
        case Complete(id, _, _) => if s.paused then ids + {id} else ids
        case Clear => {}
        case Resume => {}
        case _ => ids;
      assert Waits([], {});
      if ops[0].Complete? { PutWaits(s.buffer, ids, ops[0].id, ops[0].patch); }
      hide Waits, Patched, StillInFlight, Flushed, Capped;
      RunWaits(Do(s, ops[0]), ops[1..], ids');
    }
  }

  /** The count shown while paused is the number of commands completed since the pause began or was
      cleared, each once; it is nought when not paused. */
  lemma BufferedCount(ops: seq<Op>)
    ensures |Run(Fresh, ops).buffer| == |Waiting(ops, false, {})|
  {
    RunWaits(Fresh, ops, {});
  }
}
