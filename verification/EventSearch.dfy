/** event-log/search.ts: filtered search with a timestamp cursor. */
module EventSearch {
  import opened Options
  import opened TextOrder
  import opened MonthKeys
  import opened Ndjson
  import opened EventFiles
  import opened Texts

  /** The text side of the search: String.toLowerCase and the Date parser's verdict. */
  datatype Text = Text(lower: string -> string, isDate: string -> bool)

  /** A search; `from` and `to` are the ISO forms of the two dates. */
  datatype Query = Query(from: string, to: string, q: string, cursor: Option<string>)

  predicate Matches(text: Text, e: DeviceEvent, needle: string) {
    Includes(text.lower(e.kind + " " + e.summary + " " + e.detail), needle)
  }

  predicate Hit(text: Text, query: Query, e: DeviceEvent) {
    && !Less(e.at, query.from)
    && Less(e.at, query.to)
    && (query.q != "" ==> Matches(text, e, text.lower(query.q)))
  }

  predicate Selected(text: Text, query: Query, e: DeviceEvent) {
    && Hit(text, query, e)
    && (query.cursor.Some? && query.cursor.value != "" && text.isDate(query.cursor.value)
        ==> Less(e.at, query.cursor.value))
  }

  function Selecting(text: Text, query: Query): Filter {
    (e: DeviceEvent) => Selected(text, query, e)
  }

  datatype Page = Page(events: seq<DeviceEvent>, next: Option<string>)

  function PageOf(events: seq<DeviceEvent>, limit: int): Page {
    if limit <= 0 then Page([], None)
    else
      var shown := Take(events, limit);
      Page(shown, if |shown| >= limit then Some(shown[|shown| - 1].at) else None)
  }

  /** What the month walk of a search reads. */
  function Found(codec: Codec, text: Text, dir: Directory, query: Query): seq<DeviceEvent>
    requires IsUtc(query.from) && IsUtc(query.to)
  {
    OffFiles(codec, Selecting(text, query), dir, KeysDown(Index(query.from[..7]), Index(query.to[..7])))
  }

  method SearchEvents(codec: Codec, text: Text, chunk: nat, dir: Directory, query: Query, limit: int)
    returns (page: Page)
    requires chunk >= 1 && IsUtc(query.from) && IsUtc(query.to)
    ensures page == PageOf(Found(codec, text, dir, query), limit)
  {
    hide OffFiles, Selecting, KeysDown, IsMonthKey, Index, Take;
    if limit <= 0 { return Page([], None); }
    var months := MonthsInRange(query.from[..7], query.to[..7]);
    var out := ReadMonths(codec, Selecting(text, query), chunk, dir, months, limit);
    page := Page(out, if |out| >= limit && |out| > 0 then Some(out[|out| - 1].at) else None);
  }

  // ---- one page ---------------------------------------------------------------------------

  function Hits(text: Text, query: Query, log: seq<DeviceEvent>): seq<DeviceEvent> {
    Wanted(log, Selecting(text, query))
  }

  /** When the files hold a log, a page is the first `limit` hits of that log: the month walk
      misses nothing of [from, to). */
  lemma SearchReadsTheLog(codec: Codec, text: Text, dir: Directory, query: Query, log: seq<DeviceEvent>)
    requires IsUtc(query.from) && IsUtc(query.to)
    requires Holds(codec, dir, log) && NewestFirst(log)
    ensures Found(codec, text, dir, query) == Hits(text, query, log)
  {
    hide Less, IsMonthKey, Index, KeysDown, Matches;
    var start, end := query.from[..7], query.to[..7];
    var months := KeysDown(Index(start), Index(end));
    KeyOfIndex(end);
    RangeDescends(Index(start), Index(end));
    forall e | e in log && Selecting(text, query)(e)
      ensures Month(e) in months
    {
      assert IsUtc(e.at);
      NotAfter(e.at, query.to);
      HeadMonotone(query.from, e.at, 7);
      HeadMonotone(e.at, query.to, 7);
      RangeIsComplete(start, end, Month(e));
    }
    FilesGiveTheLog(codec, Selecting(text, query), dir, log, months);
  }

  lemma NotAfter(a: string, b: string)
    requires Less(a, b)
    ensures AtMost(a, b)
  {
    Asymmetric(a, b);
  }

  // ---- what is found ------------------------------------------------------------------------

  /** The cursor counts when it is not empty and is a date. */
  predicate BeforeCursor(text: Text, query: Query, at: string) {
    query.cursor == None || query.cursor == Some("") || !text.isDate(query.cursor.value) || Less(at, query.cursor.value)
  }

  lemma OnSomePage(events: seq<DeviceEvent>, e: DeviceEvent)
    ensures (exists limit: int :: e in PageOf(events, limit).events) <==> e in events
  {
    if e in events { assert e in PageOf(events, |events|).events; }
  }

  /** An event is on some page exactly when it is in the log, not before the first date, before the second
      and before the cursor, and its kind, summary and detail in lower case, put together with blanks,
      include the searched text in lower case. */
  lemma SearchFindsIff(codec: Codec, text: Text, dir: Directory, query: Query, log: seq<DeviceEvent>, e: DeviceEvent)
    requires IsUtc(query.from) && IsUtc(query.to) && Holds(codec, dir, log) && NewestFirst(log)
    ensures (exists limit: int :: e in PageOf(Found(codec, text, dir, query), limit).events) <==>
      && e in log && !Less(e.at, query.from) && Less(e.at, query.to) && BeforeCursor(text, query, e.at)
      && (query.q != "" ==> Includes(text.lower(e.kind + " " + e.summary + " " + e.detail), text.lower(query.q)))
  {
    OnSomePage(Found(codec, text, dir, query), e);
    SearchReadsTheLog(codec, text, dir, query, log);
    hide Less, IsMonthKey, IsUtc, PageOf, Includes, Holds, OffFiles, KeysDown, Index, Wanted;
    WantedMembers(log, Selecting(text, query), e);
  }

  /** toLowerCase goes letter by letter and leaves the blank. */
  ghost predicate LowersLetters(lower: string -> string) {
    lower(" ") == " " && forall a, b :: lower(a + b) == lower(a) + lower(b)
  }

  lemma LowerAcross(lower: string -> string, a: string, b: string, c: string, part: string)
    requires LowersLetters(lower) && ' ' !in part
    ensures Includes(lower(a + " " + b + " " + c), part) <==> Includes(lower(a), part) || Includes(lower(b), part) || Includes(lower(c), part)
  {
    assert lower(a + " " + b + " " + c) == lower(a + " " + b + " ") + lower(c) == lower(a + " " + b) + " " + lower(c);
    assert lower(a + " " + b) == lower(a + " ") + lower(b) == lower(a) + " " + lower(b);
    hide *;
    IncludesAcross(lower(a) + " " + lower(b), lower(c), part);
    IncludesAcross(lower(a), lower(b), part);
  }

  /** So a word is found exactly in the kind, the summary or the detail, in either case. */
  lemma SearchFindsWord(codec: Codec, text: Text, dir: Directory, query: Query, log: seq<DeviceEvent>, e: DeviceEvent)
    requires IsUtc(query.from) && IsUtc(query.to) && Holds(codec, dir, log) && NewestFirst(log)
    requires LowersLetters(text.lower) && ' ' !in text.lower(query.q)
    ensures (exists limit: int :: e in PageOf(Found(codec, text, dir, query), limit).events) <==>
      && e in log && !Less(e.at, query.from) && Less(e.at, query.to) && BeforeCursor(text, query, e.at)
      && (query.q == "" || Includes(text.lower(e.kind), text.lower(query.q))
          || Includes(text.lower(e.summary), text.lower(query.q)) || Includes(text.lower(e.detail), text.lower(query.q)))
  {
    hide *;
    SearchFindsIff(codec, text, dir, query, log, e);
    LowerAcross(text.lower, e.kind, e.summary, e.detail, text.lower(query.q));
  }

  // ---- following the cursor ------------------------------------------------------------------

  /** Every date the log stores parses. */
  ghost predicate Reads(text: Text) {
    forall at :: IsUtc(at) ==> text.isDate(at)
  }

  /** The log as the later pages find it: before each further request it grows at its newest end. */
  ghost predicate GrowsInOrder(log: seq<DeviceEvent>, growth: seq<seq<DeviceEvent>>)
    decreases |growth|
  {
    NewestFirst(log) && (growth != [] ==> GrowsInOrder(growth[0] + log, growth[1..]))
  }

  ghost predicate Falls(events: seq<DeviceEvent>) {
    forall i, j :: 0 <= i < j < |events| ==> Less(events[j].at, events[i].at)
  }

  /** Ask for a page, then follow nextCursor; one entry of `growth` per further request. Gives
      the events of all pages and whether the last page had no cursor. */
  function Walk(text: Text, query: Query, limit: int, log: seq<DeviceEvent>, growth: seq<seq<DeviceEvent>>)
    : (seq<DeviceEvent>, bool)
    decreases |growth|
  {
    var page := PageOf(Hits(text, query, log), limit);
    if page.next.None? then (page.events, true)
    else if growth == [] then (page.events, false)
    else
      var rest := Walk(text, query.(cursor := page.next), limit, growth[0] + log, growth[1..]);
      (page.events + rest.0, rest.1)
  }

  lemma {:induction false} FilterTwice(log: seq<DeviceEvent>, both: Filter, first: Filter, second: Filter)
    requires forall e :: e in log ==> (both(e) <==> first(e) && second(e))
    ensures Wanted(log, both) == Wanted(Wanted(log, first), second)
  {
    if log != [] {
      FilterTwice(log[1..], both, first, second);
      var w := Wanted(log[1..], first);
      assert ([log[0]] + w)[1..] == w;
    }
  }

  lemma {:induction false} KeepsAllOrNone(events: seq<DeviceEvent>, keep: Filter)
    ensures (forall e :: e in events ==> keep(e)) ==> Wanted(events, keep) == events
    ensures (forall e :: e in events ==> !keep(e)) ==> Wanted(events, keep) == []
  {
    if events != [] {
      KeepsAllOrNone(events[1..], keep);
      assert events == [events[0]] + events[1..];
    }
  }

  function Below(at: string): Filter {
    (e: DeviceEvent) => Less(e.at, at)
  }

  lemma Resumed(text: Text, query: Query, at: string, e: DeviceEvent)
    requires Reads(text) && IsUtc(at)
    requires query.cursor.Some? && query.cursor.value != "" && text.isDate(query.cursor.value) ==> Less(at, query.cursor.value)
    ensures Selected(text, query.(cursor := Some(at)), e) <==> Selected(text, query, e) && Less(e.at, at)
  {
    hide Less, Matches, IsMonthKey;
    if Less(e.at, at) && query.cursor.Some? && query.cursor.value != "" && text.isDate(query.cursor.value) {
      Transitive(e.at, at, query.cursor.value);
    }
  }

  /** Resuming after the i-th hit gives exactly the hits after it, also when the log has grown. */
  lemma AfterCursor(text: Text, query: Query, log: seq<DeviceEvent>, newer: seq<DeviceEvent>, i: nat)
    requires Reads(text) && NewestFirst(newer + log)
    requires i < |Hits(text, query, log)| && Falls(Hits(text, query, log))
    ensures var hits := Hits(text, query, log);
      Hits(text, query.(cursor := Some(hits[i].at)), newer + log) == hits[i + 1..]
  {
    hide Less, Matches, IsUtc, Selected;
    var hits := Hits(text, query, log);
    var at := hits[i].at;
    var query' := query.(cursor := Some(at));
    HitIsSelected(text, query, log, hits[i]);
    var k :| 0 <= k < |log| && log[k] == hits[i];
    assert (newer + log)[|newer| + k] == hits[i];
    forall e
      ensures Selected(text, query', e) <==> Selected(text, query, e) && Less(e.at, at)
    {
      Resumed(text, query, at, e);
    }
    FilterTwice(log, Selecting(text, query'), Selecting(text, query), Below(at));
    WantedConcat(newer, log, Selecting(text, query'));
    forall e | e in newer
      ensures !Selecting(text, query')(e)
    {
      var j :| 0 <= j < |newer| && newer[j] == e;
      assert (newer + log)[j] == e;
      assert AtMost(at, e.at);
    }
    KeepsAllOrNone(newer, Selecting(text, query'));
    CutAt(hits, i);
  }

  lemma HeadNotBelow(hits: seq<DeviceEvent>, i: nat, e: DeviceEvent)
    requires i < |hits| && Falls(hits) && e in hits[..i + 1]
    ensures !Less(e.at, hits[i].at)
  {
    hide Less;
    var j :| 0 <= j < i + 1 && hits[..i + 1][j] == e;
    if j < i {
      Asymmetric(hits[i].at, hits[j].at);
    } else {
      Irreflexive(hits[i].at);
    }
  }

  lemma CutAt(hits: seq<DeviceEvent>, i: nat)
    requires i < |hits| && Falls(hits)
    ensures Wanted(hits, Below(hits[i].at)) == hits[i + 1..]
  {
    hide Less, Wanted;
    var head, tail := hits[..i + 1], hits[i + 1..];
    assert hits == head + tail;
    var below := Below(hits[i].at);
    WantedConcat(head, tail, below);
    forall e | e in head
      ensures !below(e)
    {
      HeadNotBelow(hits, i, e);
    }
    forall e | e in tail
      ensures below(e)
    {
      var j :| 0 <= j < |tail| && tail[j] == e;
      assert hits[i + 1 + j] == e;
    }
    KeepsAllOrNone(head, below);
    KeepsAllOrNone(tail, below);
  }

  lemma HitIsSelected(text: Text, query: Query, log: seq<DeviceEvent>, e: DeviceEvent)
    requires e in Hits(text, query, log)
    ensures e in log && Selected(text, query, e)
    ensures query.cursor.Some? && query.cursor.value != "" && text.isDate(query.cursor.value) ==> Less(e.at, query.cursor.value)
  {
    WantedMembers(log, Selecting(text, query), e);
  }

  /** The cursor strictly falls from page to page. */
  lemma CursorFalls(text: Text, query: Query, log: seq<DeviceEvent>, limit: int)
    requires query.cursor.Some? && query.cursor.value != "" && text.isDate(query.cursor.value)
    requires PageOf(Hits(text, query, log), limit).next.Some?
    ensures Less(PageOf(Hits(text, query, log), limit).next.value, query.cursor.value)
  {
    var shown := Take(Hits(text, query, log), limit);
    HitIsSelected(text, query, log, shown[|shown| - 1]);
  }

  /** Following the cursor to its end gives every hit of the log of the first request once,
      newest first, for every page size and whatever newer events arrive meanwhile; as many
      further requests as there are hits always reach the end. */
  lemma {:induction false} WalkIsComplete(text: Text, query: Query, limit: nat, log: seq<DeviceEvent>, growth: seq<seq<DeviceEvent>>)
    requires limit >= 1 && Reads(text) && GrowsInOrder(log, growth)
    requires Falls(Hits(text, query, log))
    ensures var (events, ended) := Walk(text, query, limit, log, growth);
      && events <= Hits(text, query, log)
      && (ended ==> events == Hits(text, query, log))
      && (|growth| >= |Hits(text, query, log)| ==> ended)
    decreases |growth|
  {
    hide Less, Selected, Hits, NewestFirst;
    var hits := Hits(text, query, log);
    var page := PageOf(hits, limit);
    if page.next.Some? && growth != [] {
      var query' := query.(cursor := page.next);
      AfterCursor(text, query, log, growth[0], limit - 1);
      assert page.events == hits[..limit];
      WalkIsComplete(text, query', limit, growth[0] + log, growth[1..]);
      assert hits == hits[..limit] + hits[limit..];
    }
  }

  // ---- ties ---------------------------------------------------------------------------------------

  function Idle(n: nat): seq<seq<DeviceEvent>> {
    if n == 0 then [] else [[]] + Idle(n - 1)
  }

  lemma {:induction false} IdleGrows(log: seq<DeviceEvent>, n: nat)
    requires NewestFirst(log)
    ensures |Idle(n)| == n && GrowsInOrder(log, Idle(n))
  {
    if n > 0 {
      IdleGrows(log, n - 1);
      assert Idle(n)[0] + log == log && Idle(n)[1..] == Idle(n - 1);
    }
  }

  lemma {:induction false} WalkStaysBelow(text: Text, query: Query, limit: nat, log: seq<DeviceEvent>, growth: seq<seq<DeviceEvent>>, e: DeviceEvent)
    requires limit >= 1 && Reads(text) && GrowsInOrder(log, growth)
    requires query.cursor.Some? && IsUtc(query.cursor.value)
    requires e in Walk(text, query, limit, log, growth).0
    ensures Less(e.at, query.cursor.value)
    decreases |growth|
  {
    assert query.cursor.value != "";
    hide Less, Selected, Hits, IsUtc;
    var hits := Hits(text, query, log);
    var page := PageOf(hits, limit);
    if e in page.events {
      HitIsSelected(text, query, log, e);
    } else {
      var last := page.events[|page.events| - 1];
      HitIsSelected(text, query, log, last);
      var query' := query.(cursor := page.next);
      WalkStaysBelow(text, query', limit, growth[0] + log, growth[1..], e);
      Transitive(e.at, last.at, query.cursor.value);
    }
  }

  /** The cursor is a timestamp and resumption is strict, so pagination is complete for every
      page size exactly when no two hits carry the same timestamp. */
  lemma PaginationNeedsDistinctTimes(text: Text, query: Query, log: seq<DeviceEvent>)
    requires Reads(text) && NewestFirst(log)
    ensures (forall limit: nat :: limit >= 1 ==> Walk(text, query, limit, log, Idle(|Hits(text, query, log)|)).0 == Hits(text, query, log))
       <==> Falls(Hits(text, query, log))
  {
    hide Less, Selected, Hits, IsUtc;
    var hits := Hits(text, query, log);
    var growth := Idle(|hits|);
    IdleGrows(log, |hits|);
    if Falls(hits) {
      forall limit: nat | limit >= 1
        ensures Walk(text, query, limit, log, growth).0 == hits
      {
        WalkIsComplete(text, query, limit, log, growth);
      }
    } else {
      var i, j :| 0 <= i < j < |hits| && !Less(hits[j].at, hits[i].at);
      TieIsLost(text, query, log, i, j);
    }
  }

  lemma TieIsLost(text: Text, query: Query, log: seq<DeviceEvent>, i: nat, j: nat)
    requires Reads(text) && NewestFirst(log)
    requires i < j < |Hits(text, query, log)|
    requires !Less(Hits(text, query, log)[j].at, Hits(text, query, log)[i].at)
    ensures Walk(text, query, i + 1, log, Idle(|Hits(text, query, log)|)).0 != Hits(text, query, log)
  {
    hide Less, Selected, Hits, IsUtc;
    var hits := Hits(text, query, log);
    var growth := Idle(|hits|);
    IdleGrows(log, |hits|);
    var page := PageOf(hits, i + 1);
    var query' := query.(cursor := page.next);
    assert page.events == hits[..i + 1];
    HitIsSelected(text, query, log, hits[i]);
    var all := Walk(text, query, i + 1, log, growth).0;
    if all == hits {
      var rest := Walk(text, query', i + 1, growth[0] + log, growth[1..]).0;
      assert all == page.events + rest;
      assert rest[j - (i + 1)] == hits[j];
      WalkStaysBelow(text, query', i + 1, growth[0] + log, growth[1..], hits[j]);
    }
  }
}
