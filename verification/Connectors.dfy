/** apps/server/src/broker/queries.ts mergeConnectorFromStatusEvent: the connectors of a charger's
    row, kept up to date from status events that may come in any order. */
module Connectors {
  import opened Options
  import opened TextOrder

  datatype Connector = Connector(id: int, status: string, errorCode: Option<string>, changedAt: Option<string>)

  type Row = seq<Connector>

  /** A payload without a finite connector id has None; `timestamp` is the event's own, in ISO form. */
  datatype Event = Event(
    connectorId: Option<int>, status: Option<string>, errorCode: Option<string>, reportedAt: Option<string>, timestamp: string)

  predicate Relevant(e: Event) {
    e.connectorId.Some? && Truthy(e.status)
  }

  function At(e: Event): string {
    if Truthy(e.reportedAt) then e.reportedAt.value else e.timestamp
  }

  function Reported(e: Event): Connector
    requires Relevant(e)
  {
    Connector(e.connectorId.value, e.status.value, if Truthy(e.errorCode) then e.errorCode else None, Some(At(e)))
  }

  function Find(row: Row, id: int): Option<Connector> {
    if row == [] then None else if row[0].id == id then Some(row[0]) else Find(row[1..], id)
  }

  function Others(row: Row, id: int): Row {
    if row == [] then [] else (if row[0].id != id then [row[0]] else []) + Others(row[1..], id)
  }

  function Insert(c: Connector, row: Row): Row {
    if row == [] || c.id <= row[0].id then [c] + row else [row[0]] + Insert(c, row[1..])
  }

  function SortById(row: Row): Row {
    if row == [] then [] else Insert(row[0], SortById(row[1..]))
  }

  /** The entry already tells of a moment at or after `at`. */
  predicate UpToDate(existing: Option<Connector>, at: string) {
    existing.Some? && Truthy(existing.value.changedAt) && AtMost(at, existing.value.changedAt.value)
  }

  function Merged(row: Row, e: Event): Row {
    if !Relevant(e) || UpToDate(Find(row, e.connectorId.value), At(e)) then row
    else SortById(Others(row, e.connectorId.value) + [Reported(e)])
  }

  method MergeConnector(row: Row, e: Event) returns (next: Row)
    ensures next == Merged(row, e)
  {
    if e.connectorId.None? { return row; }
    if !Truthy(e.status) { return row; }
    var existing := Find(row, e.connectorId.value);
    if UpToDate(existing, At(e)) { return row; }
    next := [];
    assert row[0..] == row;
    for i := 0 to |row|
      invariant next + Others(row[i..], e.connectorId.value) == Others(row, e.connectorId.value)
    {
      assert row[i..][0] == row[i] && row[i..][1..] == row[i + 1..];
      if row[i].id != e.connectorId.value { next := next + [row[i]]; }
    }
    assert row[|row|..] == [] && next + [] == next;
    next := next + [Reported(e)];
    next := SortById(next);
  }

  // ---- a row as a map --------------------------------------------------------------------------------

  /** Connectors in ascending order, each once. */
  predicate Sorted(row: Row) {
    forall i, j :: 0 <= i < j < |row| ==> Before(row[i], row[j])
  }

  predicate Before(c: Connector, d: Connector) {
    c.id < d.id
  }

  lemma TailSorted(row: Row)
    requires Sorted(row) && row != []
    ensures Sorted(row[1..]) && forall c :: c in row[1..] ==> Before(row[0], c)
  {
    hide Before;
    forall c | c in row[1..]
      ensures Before(row[0], c)
    {
      var i :| 0 <= i < |row[1..]| && row[1..][i] == c;
      assert Before(row[0], row[i + 1]);
    }
    forall i, j | 0 <= i < j < |row[1..]|
      ensures Before(row[1..][i], row[1..][j])
    {
      assert Before(row[i + 1], row[j + 1]);
    }
  }

  lemma ConsSorted(c: Connector, rest: Row)
    requires Sorted(rest) && forall d :: d in rest ==> Before(c, d)
    ensures Sorted([c] + rest)
  {
    hide Before;
    var all := [c] + rest;
    forall i, j | 0 <= i < j < |all|
      ensures Before(all[i], all[j])
    {
      if i == 0 {
        assert all[j] == rest[j - 1] && rest[j - 1] in rest;
      } else {
        assert Before(rest[i - 1], rest[j - 1]);
      }
    }
  }

  function AsMap(row: Row): map<int, Connector> {
    if row == [] then map[] else AsMap(row[1..])[row[0].id := row[0]]
  }

  function MergedMap(m: map<int, Connector>, e: Event): map<int, Connector> {
    if !Relevant(e) || UpToDate(Lookup(m, e.connectorId.value), At(e)) then m else m[e.connectorId.value := Reported(e)]
  }

  function Lookup(m: map<int, Connector>, id: int): Option<Connector> {
    if id in m then Some(m[id]) else None
  }

  lemma {:induction false} MapIsRow(row: Row)
    ensures forall id :: Lookup(AsMap(row), id) == Find(row, id)
    ensures forall id :: id in AsMap(row) <==> exists c :: c in row && c.id == id
  {
    if row != [] {
      MapIsRow(row[1..]);
      assert row == [row[0]] + row[1..];
    }
  }

  predicate Absent(row: Row, id: int) {
    forall c :: c in row ==> c.id != id
  }

  lemma {:induction false} OthersRows(row: Row, id: int)
    ensures forall c :: c in Others(row, id) <==> c in row && c.id != id
  {
    if row != [] {
      OthersRows(row[1..], id);
      assert row == [row[0]] + row[1..];
    }
  }

  lemma {:induction false} OthersSorted(row: Row, id: int)
    requires Sorted(row)
    ensures Sorted(Others(row, id))
  {
    if row != [] {
      TailSorted(row);
      OthersSorted(row[1..], id);
      OthersRows(row[1..], id);
      hide Before, Sorted;
      if row[0].id != id { ConsSorted(row[0], Others(row[1..], id)); }
    }
  }

  lemma {:induction false} OthersMap(row: Row, id: int)
    requires Sorted(row)
    ensures AsMap(Others(row, id)) == AsMap(row) - {id}
  {
    if row != [] {
      TailSorted(row);
      hide Sorted, Before;
      OthersMap(row[1..], id);
      var rest := Others(row[1..], id);
      if row[0].id != id {
        assert ([row[0]] + rest)[1..] == rest;
      } else {
        assert [] + rest == rest;
      }
    }
  }

  lemma {:induction false} InsertRows(c: Connector, row: Row)
    ensures forall d :: d in Insert(c, row) <==> d == c || d in row
  {
    if row != [] && row[0].id < c.id {
      InsertRows(c, row[1..]);
      assert row == [row[0]] + row[1..];
    }
  }

  lemma {:induction false} InsertSorted(c: Connector, row: Row)
    requires Sorted(row) && Absent(row, c.id)
    ensures Sorted(Insert(c, row))
  {
    if row == [] {
      ConsSorted(c, row);
    } else {
      assert row[0] in row;
      TailSorted(row);
      if c.id < row[0].id {
        assert forall d :: d in row ==> d == row[0] || d in row[1..];
        hide Sorted;
        ConsSorted(c, row);
      } else {
        InsertSorted(c, row[1..]);
        InsertRows(c, row[1..]);
        hide Sorted;
        ConsSorted(row[0], Insert(c, row[1..]));
      }
    }
  }

  lemma ConsMap(c: Connector, row: Row)
    ensures AsMap([c] + row) == AsMap(row)[c.id := c]
  {
    assert ([c] + row)[1..] == row;
  }

  lemma {:induction false} InsertMap(c: Connector, row: Row)
    requires Absent(row, c.id)
    ensures AsMap(Insert(c, row)) == AsMap(row)[c.id := c]
  {
    hide AsMap;
    if row == [] {
      ConsMap(c, []);
    } else if c.id <= row[0].id {
      ConsMap(c, row);
    } else {
      assert row[0] in row && forall d :: d in row[1..] ==> d in row;
      InsertMap(c, row[1..]);
      ConsMap(row[0], Insert(c, row[1..]));
      ConsMap(row[0], row[1..]);
      assert [row[0]] + row[1..] == row;
    }
  }

  lemma InsertFront(c: Connector, row: Row)
    requires forall d :: d in row ==> Before(c, d)
    ensures Insert(c, row) == [c] + row
  {
    if row != [] { assert row[0] in row; }
  }

  lemma {:induction false} SortAppended(row: Row, c: Connector)
    requires Sorted(row) && Absent(row, c.id)
    ensures SortById(row + [c]) == Insert(c, row)
  {
    if row == [] {
      assert [] + [c] == [c] && [c][1..] == [];
    } else {
      assert (row + [c])[1..] == row[1..] + [c];
      assert row[0] in row && forall d :: d in row[1..] ==> d in row;
      TailSorted(row);
      SortAppended(row[1..], c);
      hide Sorted, SortById;
      InsertFront(row[0], row[1..]);
      assert row == [row[0]] + row[1..];
      if c.id < row[0].id {
        InsertFront(c, row[1..]);
        assert ([c] + row[1..])[1..] == row[1..];
      } else {
        InsertRows(c, row[1..]);
        InsertFront(row[0], Insert(c, row[1..]));
      }
    }
  }

  /** The entry is what the event says: its status, its error code unless that is empty, and its own time,
      or else the time it was reported at. */
  predicate Shows(entry: Option<Connector>, e: Event) {
    && entry.Some? && Some(entry.value.id) == e.connectorId && Some(entry.value.status) == e.status
    && entry.value.errorCode == (if e.errorCode == Some("") then None else e.errorCode)
    && entry.value.changedAt == Some(if e.reportedAt.Some? && e.reportedAt.value != "" then e.reportedAt.value else e.timestamp)
  }

  /** The entry tells of the event's moment or a later one. */
  predicate NotOlder(entry: Option<Connector>, e: Event) {
    entry.Some? && entry.value.changedAt.Some? && entry.value.changedAt.value != "" &&
    AtMost(if e.reportedAt.Some? && e.reportedAt.value != "" then e.reportedAt.value else e.timestamp, entry.value.changedAt.value)
  }

  /** A status event shows in its connector's entry, and in no other, exactly when it names a connector and a
      status and the entry is not as new already; else the row stays. */
  lemma MergeShows(row: Row, e: Event, id: int)
    requires Sorted(row)
    ensures var counts := e.connectorId.Some? && e.status.Some? && e.status.value != "" && !NotOlder(Find(row, e.connectorId.value), e);
      && (!counts ==> Merged(row, e) == row)
      && (counts && e.connectorId == Some(id) ==> Shows(Find(Merged(row, e), id), e))
      && (e.connectorId != Some(id) ==> Find(Merged(row, e), id) == Find(row, id))
  {
    MergeIsMap(row, e);
    MapIsRow(row);
    MapIsRow(Merged(row, e));
    hide Sorted, SortById, Others, Find, AsMap, Less;
    assert Find(row, id) == Lookup(AsMap(row), id) && Find(Merged(row, e), id) == Lookup(AsMap(Merged(row, e)), id);
    if e.connectorId.Some? { assert Find(row, e.connectorId.value) == Lookup(AsMap(row), e.connectorId.value); }
  }

  /** On a sorted row the merge is an update of the map it stands for, and keeps it sorted. */
  lemma MergeIsMap(row: Row, e: Event)
    requires Sorted(row)
    ensures Sorted(Merged(row, e)) && AsMap(Merged(row, e)) == MergedMap(AsMap(row), e)
  {
    hide Sorted, SortById, Insert, AsMap, Others, Find, UpToDate;
    MapIsRow(row);
    if Relevant(e) {
      var id := e.connectorId.value;
      OthersMap(row, id);
      OthersRows(row, id);
      OthersSorted(row, id);
      SortAppended(Others(row, id), Reported(e));
      InsertMap(Reported(e), Others(row, id));
      InsertSorted(Reported(e), Others(row, id));
    }
  }

  lemma EmptyMap(row: Row)
    ensures AsMap(row) == map[] <==> row == []
  {
    if row != [] { assert row[0].id in AsMap(row); }
  }

  lemma {:induction false} MapDeterminesRow(a: Row, b: Row)
    requires Sorted(a) && Sorted(b) && AsMap(a) == AsMap(b)
    ensures a == b
  {
    if a != [] && b != [] {
      HeadIsLeast(a, b[0].id);
      HeadIsLeast(b, a[0].id);
      assert AsMap(a)[a[0].id] == a[0] && AsMap(b)[b[0].id] == b[0];
      TailMap(a);
      TailMap(b);
      TailSorted(a);
      TailSorted(b);
      MapDeterminesRow(a[1..], b[1..]);
      assert a == [a[0]] + a[1..] && b == [b[0]] + b[1..];
    } else {
      EmptyMap(a);
      EmptyMap(b);
    }
  }

  lemma HeadIsLeast(row: Row, id: int)
    requires Sorted(row) && row != [] && id in AsMap(row)
    ensures row[0].id <= id
  {
    MapIsRow(row);
    var c :| c in row && c.id == id;
    var i :| 0 <= i < |row| && row[i] == c;
  }

  lemma NotInTail(row: Row)
    requires Sorted(row) && row != []
    ensures row[0].id !in AsMap(row[1..])
  {
    hide Sorted, AsMap;
    TailSorted(row);
    MapIsRow(row[1..]);
  }

  lemma TailMap(row: Row)
    requires Sorted(row) && row != []
    ensures AsMap(row[1..]) == AsMap(row) - {row[0].id}
  {
    assert AsMap(row) == AsMap(row[1..])[row[0].id := row[0]];
    hide *;
    NotInTail(row);
  }

  // ---- any order of events -----------------------------------------------------------------------------

  /** Two events that can be exchanged: of different connectors, of different moments, or saying the
      same. */
  predicate Compatible(a: Event, b: Event) {
    Relevant(a) && Relevant(b) && a.connectorId == b.connectorId && At(a) == At(b) ==> Reported(a) == Reported(b)
  }

  predicate Stamped(e: Event) {
    e.timestamp != ""
  }

  lemma CommuteOnMaps(m: map<int, Connector>, a: Event, b: Event)
    requires Compatible(a, b) && Stamped(a) && Stamped(b)
    ensures MergedMap(MergedMap(m, a), b) == MergedMap(MergedMap(m, b), a)
  {
    Irreflexive(At(a));
    Total(At(a), At(b));
    if Less(At(a), At(b)) { Asymmetric(At(a), At(b)); }
    if Less(At(b), At(a)) { Asymmetric(At(b), At(a)); }
    if Relevant(a) && Relevant(b) && a.connectorId == b.connectorId && a.connectorId.value in m {
      var at := m[a.connectorId.value].changedAt;
      if at.Some? {
        if AtMost(At(a), At(b)) && AtMost(At(b), at.value) { AtMostTransitive(At(a), At(b), at.value); }
        if AtMost(At(b), At(a)) && AtMost(At(a), at.value) { AtMostTransitive(At(b), At(a), at.value); }
      }
    }
    hide Less, AtMost, At;
  }

  /** Two events can be applied in either order, to every sorted row, exactly when they are
      compatible. */
  lemma CommuteIff(a: Event, b: Event)
    requires Stamped(a) && Stamped(b)
    ensures Compatible(a, b) <==> forall row :: Sorted(row) ==> Merged(Merged(row, a), b) == Merged(Merged(row, b), a)
  {
    if Compatible(a, b) {
      forall row | Sorted(row)
        ensures Merged(Merged(row, a), b) == Merged(Merged(row, b), a)
      {
        BothMaps(row, a, b);
        BothMaps(row, b, a);
        CommuteOnMaps(AsMap(row), a, b);
        MapDeterminesRow(Merged(Merged(row, a), b), Merged(Merged(row, b), a));
      }
    } else {
      TieKeepsFirst(a, b);
      TieKeepsFirst(b, a);
      assert Sorted([]);
    }
  }

  lemma BothMaps(row: Row, a: Event, b: Event)
    requires Sorted(row)
    ensures Sorted(Merged(Merged(row, a), b)) && AsMap(Merged(Merged(row, a), b)) == MergedMap(MergedMap(AsMap(row), a), b)
  {
    hide Merged, MergedMap, Sorted;
    MergeIsMap(row, a);
    MergeIsMap(Merged(row, a), b);
  }

  /** Of two events of one moment the first one stays. */
  lemma TieKeepsFirst(a: Event, b: Event)
    requires Relevant(a) && Relevant(b) && a.connectorId == b.connectorId && At(a) == At(b) && Stamped(a)
    ensures Merged(Merged([], a), b) == [Reported(a)]
  {
    Irreflexive(At(a));
    assert [] + [Reported(a)] == [Reported(a)] && [Reported(a)][1..] == [];
    assert SortById([Reported(a)]) == Insert(Reported(a), []) == [Reported(a)];
    assert Merged([], a) == [Reported(a)];
    assert Find([Reported(a)], a.connectorId.value) == Some(Reported(a));
  }

  function Fold(row: Row, events: seq<Event>): Row
    decreases |events|
  {
    if events == [] then row else Fold(Merged(row, events[0]), events[1..])
  }

  function FoldMap(m: map<int, Connector>, events: seq<Event>): map<int, Connector>
    decreases |events|
  {
    if events == [] then m else FoldMap(MergedMap(m, events[0]), events[1..])
  }

  lemma {:induction false} FoldIsMap(row: Row, events: seq<Event>)
    requires Sorted(row)
    ensures Sorted(Fold(row, events)) && AsMap(Fold(row, events)) == FoldMap(AsMap(row), events)
    decreases |events|
  {
    if events != [] {
      MergeIsMap(row, events[0]);
      FoldIsMap(Merged(row, events[0]), events[1..]);
    }
  }

  predicate AllCompatible(events: seq<Event>) {
    forall a, b :: a in events && b in events ==> Compatible(a, b) && Stamped(a)
  }

  function Drop(events: seq<Event>, i: nat): seq<Event>
    requires i < |events|
  {
    events[..i] + events[i + 1..]
  }

  lemma {:induction false} BringToFront(m: map<int, Connector>, events: seq<Event>, i: nat)
    requires i < |events| && AllCompatible(events)
    ensures FoldMap(m, events) == FoldMap(MergedMap(m, events[i]), Drop(events, i))
    decreases |events|
  {
    hide MergedMap, Compatible, Stamped;
    if i == 0 {
      assert Drop(events, 0) == events[1..];
    } else {
      var rest := events[1..];
      assert forall e :: e in rest ==> e in events;
      BringToFront(MergedMap(m, events[0]), rest, i - 1);
      assert rest[i - 1] == events[i] && events[0] in events && events[i] in events;
      CommuteOnMaps(m, events[0], events[i]);
      assert Drop(events, i)[0] == events[0] && Drop(events, i)[1..] == Drop(rest, i - 1);
    }
  }

  lemma WithoutHead<T>(s: seq<T>)
    requires s != []
    ensures multiset(s[1..]) == multiset(s) - multiset{s[0]}
  {
    assert s == [s[0]] + s[1..];
  }

  lemma DropOne(s: seq<Event>, i: nat)
    requires i < |s|
    ensures multiset(Drop(s, i)) == multiset(s) - multiset{s[i]}
  {
    assert s == s[..i] + ([s[i]] + s[i + 1..]);
    assert multiset(s) == multiset(s[..i]) + (multiset{s[i]} + multiset(s[i + 1..]));
    assert multiset(Drop(s, i)) == multiset(s[..i]) + multiset(s[i + 1..]);
  }

  lemma SameMembers(a: seq<Event>, b: seq<Event>, e: Event)
    requires multiset(a) == multiset(b)
    ensures e in a <==> e in b
  {
    assert e in multiset(a) <==> e in multiset(b);
  }

  lemma {:induction false} PermutedMap(m: map<int, Connector>, events: seq<Event>, permuted: seq<Event>)
    requires multiset(events) == multiset(permuted) && AllCompatible(events)
    ensures FoldMap(m, events) == FoldMap(m, permuted)
    decreases |events|
  {
    forall x ensures x in events <==> x in permuted { SameMembers(events, permuted, x); }
    if events == [] {
      assert |multiset(permuted)| == |permuted|;
    } else {
      hide MergedMap, Compatible, Stamped;
      var e := events[0];
      assert e in permuted;
      var i :| 0 <= i < |permuted| && permuted[i] == e;
      BringToFront(m, permuted, i);
      WithoutHead(events);
      DropOne(permuted, i);
      assert forall x :: x in events[1..] ==> x in events;
      PermutedMap(MergedMap(m, e), events[1..], Drop(permuted, i));
    }
  }

  /** The row after a set of events does not depend on the order they came in. */
  lemma OrderDoesNotMatter(row: Row, events: seq<Event>, permuted: seq<Event>)
    requires Sorted(row) && AllCompatible(events) && multiset(events) == multiset(permuted)
    ensures Fold(row, events) == Fold(row, permuted) && Sorted(Fold(row, events))
  {
    FoldIsMap(row, events);
    FoldIsMap(row, permuted);
    PermutedMap(AsMap(row), events, permuted);
    MapDeterminesRow(Fold(row, events), Fold(row, permuted));
  }

  // ---- what the row then says ----------------------------------------------------------------------------

  predicate Touches(e: Event, id: int) {
    Relevant(e) && e.connectorId.value == id
  }

  /** Connectors of no event keep their entries; every other has an entry at least as late as each of
      its events, which is one of them or the one it had. */
  lemma {:induction false} KeepsTheLatest(m: map<int, Connector>, events: seq<Event>, id: int)
    requires forall e :: e in events ==> Stamped(e)
    ensures (forall e :: e in events ==> !Touches(e, id)) ==> Lookup(FoldMap(m, events), id) == Lookup(m, id)
    ensures forall e :: e in events && Touches(e, id) ==> UpToDate(Lookup(FoldMap(m, events), id), At(e))
    ensures Lookup(m, id).Some? && Truthy(m[id].changedAt) ==> UpToDate(Lookup(FoldMap(m, events), id), m[id].changedAt.value)
    ensures Lookup(FoldMap(m, events), id) == Lookup(m, id)
      || exists e :: e in events && Touches(e, id) && Lookup(FoldMap(m, events), id) == Some(Reported(e))
    decreases |events|
  {
    if events == [] {
      if Lookup(m, id).Some? && Truthy(m[id].changedAt) { Irreflexive(m[id].changedAt.value); }
    } else {
      var (first, rest) := (events[0], events[1..]);
      assert first in events && forall e :: e in rest ==> e in events;
      assert forall e :: e in events ==> e == first || e in rest;
      var m' := MergedMap(m, first);
      KeepsTheLatest(m', rest, id);
      if Touches(first, id) {
        FirstCounts(m, first, FoldMap(m', rest), id);
      }
    }
  }

  /** What the first event leaves is at least as late as the event and as what was there. */
  lemma FirstCounts(m: map<int, Connector>, e: Event, result: map<int, Connector>, id: int)
    requires Touches(e, id) && Stamped(e)
    requires var m' := MergedMap(m, e);
      Lookup(m', id).Some? && Truthy(m'[id].changedAt) ==> UpToDate(Lookup(result, id), m'[id].changedAt.value)
    ensures UpToDate(Lookup(result, id), At(e))
    ensures Lookup(m, id).Some? && Truthy(m[id].changedAt) ==> UpToDate(Lookup(result, id), m[id].changedAt.value)
  {
    var m' := MergedMap(m, e);
    var later := result[id].changedAt.value;
    Irreflexive(At(e));
    if Lookup(m, id).Some? && Truthy(m[id].changedAt) {
      var at := m[id].changedAt.value;
      if AtMost(At(e), at) {
        AtMostTransitive(At(e), at, later);
      } else {
        Asymmetric(at, At(e));
        AtMostTransitive(at, At(e), later);
      }
    }
  }

  lemma RowKeepsTheLatest(row: Row, events: seq<Event>, id: int)
    requires Sorted(row) && forall e :: e in events ==> Stamped(e)
    ensures (forall e :: e in events ==> !Touches(e, id)) ==> Find(Fold(row, events), id) == Find(row, id)
    ensures forall e :: e in events && Touches(e, id) ==> UpToDate(Find(Fold(row, events), id), At(e))
    ensures Find(Fold(row, events), id) == Find(row, id)
      || exists e :: e in events && Touches(e, id) && Shows(Find(Fold(row, events), id), e)
  {
    FoldIsMap(row, events);
    MapIsRow(row);
    MapIsRow(Fold(row, events));
    KeepsTheLatest(AsMap(row), events, id);
    assert Find(Fold(row, events), id) == Lookup(FoldMap(AsMap(row), events), id) && Find(row, id) == Lookup(AsMap(row), id);
    hide Fold, FoldMap, AsMap, Find, Lookup, UpToDate;
    if Find(Fold(row, events), id) != Find(row, id) {
      var e :| e in events && Touches(e, id) && Find(Fold(row, events), id) == Some(Reported(e));
      assert Shows(Some(Reported(e)), e);
    }
  }
}
