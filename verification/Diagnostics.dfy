/** apps/server/src/store/diagnostics-store.ts and the upload handler of routes/diagnostics.ts:
    one-use upload tokens, their rows, and the files the uploads leave behind. */
module Diagnostics {
  import opened Bytes
  import opened Options

  type Content = seq<Byte>

  datatype Status = Pending | Uploaded | Expired

  /** <dataDir>/uploads/<dir>/<requestId> */
  datatype Path = Path(dir: string, requestId: nat)

  datatype Row = Row(
    id: nat, cpId: string, command: string, requestId: nat, token: string, issuedAt: int, issuedBy: string,
    expiresAt: int, receivedAt: Option<int>, filePath: Option<Path>, fileSize: Option<nat>, sha256: Option<string>,
    status: Status)

  /** The table in rowid order, and the upload directory. */
  datatype State = State(rows: seq<Row>, files: map<Path, Content>)

  const Empty := State([], map[])

  // ---- paths -------------------------------------------------------------------------------------

  predicate Plain(c: char) {
    'A' <= c <= 'Z' || 'a' <= c <= 'z' || '0' <= c <= '9' || c in "_.-:"
  }

  function Cleaned(s: string): (r: string)
    ensures |r| == |s| && forall i :: 0 <= i < |s| ==> r[i] == if Plain(s[i]) then s[i] else '_'
  {
    if s == "" then "" else [if Plain(s[0]) then s[0] else '_'] + Cleaned(s[1..])
  }

  function Sanitise(s: string): string {
    if Cleaned(s) in [".", "..", ""] then "_" else Cleaned(s)
  }

  /** What OCPP ids are written with: letters, digits, underscore, dot, dash and colon. */
  predicate IdChar(c: char) {
    'A' <= c <= 'Z' || 'a' <= c <= 'z' || '0' <= c <= '9' || c == '_' || c == '.' || c == '-' || c == ':'
  }

  /** The directory of a charger: its id with every other character an underscore, or one underscore where that
      would be nothing, the directory itself or the one above. So no id leaves the upload directory. */
  lemma DirectoryIs(cpId: string)
    ensures var dir := Sanitise(cpId);
      && dir != "" && dir != "." && dir != ".." && '/' !in dir
      && (dir == "_" || |dir| == |cpId|)
      && (cpId != "" && cpId != "." && cpId != ".." ==>
            |dir| == |cpId| && forall i :: 0 <= i < |cpId| ==> dir[i] == if IdChar(cpId[i]) then cpId[i] else '_')
  {
    var cleaned := Cleaned(cpId);
    assert forall i :: 0 <= i < |cpId| ==> cleaned[i] == if IdChar(cpId[i]) then cpId[i] else '_';
    hide Cleaned, Plain;
    assert cleaned == "." ==> cpId == ".";
    assert cleaned == ".." ==> cpId == "..";
  }

  /** Names that sanitising leaves alone. */
  predicate Clean(cpId: string) {
    Sanitise(cpId) == cpId
  }

  function PathFor(cpId: string, requestId: nat): Path {
    Path(Sanitise(cpId), requestId)
  }

  function PathOf(row: Row): Path {
    PathFor(row.cpId, row.requestId)
  }

  // ---- the table -----------------------------------------------------------------------------------

  function Due(row: Row, now: int): Row {
    if row.status == Pending && row.expiresAt < now then row.(status := Expired) else row
  }

  function Swept(rows: seq<Row>, now: int): (r: seq<Row>)
    ensures |r| == |rows| && forall i :: 0 <= i < |r| ==> r[i] == Due(rows[i], now)
  {
    if rows == [] then [] else [Due(rows[0], now)] + Swept(rows[1..], now)
  }

  function ByToken(rows: seq<Row>, token: string): (r: Option<Row>)
    ensures r.Some? ==> r.value in rows && r.value.token == token
    ensures r.None? ==> forall row :: row in rows ==> row.token != token
  {
    if rows == [] then None
    else if rows[0].token == token then Some(rows[0])
    else ByToken(rows[1..], token)
  }

  function ById(rows: seq<Row>, id: nat): (r: Option<Row>)
    ensures r.Some? ==> r.value in rows && r.value.id == id
    ensures r.None? ==> forall row :: row in rows ==> row.id != id
  {
    if rows == [] then None else if rows[0].id == id then Some(rows[0]) else ById(rows[1..], id)
  }

  function MaxRequest(rows: seq<Row>, cpId: string): (m: nat)
    ensures forall row :: row in rows && row.cpId == cpId ==> row.requestId <= m
  {
    if rows == [] then 0
    else
      var rest := MaxRequest(rows[1..], cpId);
      if rows[0].cpId == cpId && rows[0].requestId > rest then rows[0].requestId else rest
  }

  function MaxId(rows: seq<Row>): (m: nat)
    ensures forall row :: row in rows ==> row.id <= m
  {
    if rows == [] then 0
    else
      var rest := MaxId(rows[1..]);
      if rows[0].id > rest then rows[0].id else rest
  }

  function Received(row: Row, now: int, path: Path, size: nat, digest: string): Row {
    row.(status := Uploaded, receivedAt := Some(now), filePath := Some(path), fileSize := Some(size), sha256 := Some(digest))
  }

  function Updated(rows: seq<Row>, id: nat, now: int, path: Path, size: nat, digest: string): (r: seq<Row>)
    ensures |r| == |rows|
    ensures forall i :: 0 <= i < |r| ==> r[i] == if rows[i].id == id then Received(rows[i], now, path, size, digest) else rows[i]
  {
    if rows == [] then []
    else [if rows[0].id == id then Received(rows[0], now, path, size, digest) else rows[0]] + Updated(rows[1..], id, now, path, size, digest)
  }

  function Removed(rows: seq<Row>, id: nat): seq<Row> {
    if rows == [] then [] else if rows[0].id == id then Removed(rows[1..], id) else [rows[0]] + Removed(rows[1..], id)
  }

  // ---- the operations --------------------------------------------------------------------------------

  datatype Reason = UnknownToken | AlreadyConsumed | TokenExpired | WrongStatus

  datatype Lookup = Found(row: Row) | Refused(reason: Reason)

  datatype Request = Request(cpId: string, command: string, requestId: Option<nat>, issuedBy: string, ttl: nat)

  function RequestId(rows: seq<Row>, request: Request): nat {
    if request.requestId.Some? then request.requestId.value else MaxRequest(rows, request.cpId) + 1
  }

  function NewRow(rows: seq<Row>, request: Request, token: string, now: int): Row {
    Row(MaxId(rows) + 1, request.cpId, request.command, RequestId(rows, request), token, now, request.issuedBy,
        now + request.ttl, None, None, None, None, Pending)
  }

  /** issue(); the UNIQUE constraint refuses a token that is in the table. */
  function Issued(s: State, request: Request, token: string, now: int): (State, Option<Row>) {
    var rows := Swept(s.rows, now);
    if ByToken(rows, token).Some? then (s.(rows := rows), None)
    else (s.(rows := rows + [NewRow(rows, request, token, now)]), Some(NewRow(rows, request, token, now)))
  }

  /** The checks that findPending and consume share, on a swept table. */
  function Eligible(rows: seq<Row>, token: string, now: int): Lookup {
    match ByToken(rows, token)
    case None => Refused(UnknownToken)
    case Some(row) =>
      if row.receivedAt.Some? then Refused(AlreadyConsumed)
      else if row.expiresAt < now then Refused(TokenExpired)
      else if row.status != Pending then Refused(WrongStatus)
      else Found(row)
  }

  function Consumed(rows: seq<Row>, token: string, path: Path, size: nat, digest: string, now: int): (seq<Row>, Lookup) {
    var swept := Swept(rows, now);
    match Eligible(swept, token, now)
    case Refused(reason) => (swept, Refused(reason))
    case Found(row) => (Updated(swept, row.id, now, path, size, digest), Found(Received(row, now, path, size, digest)))
  }

  /** `removed` says whether rmSync worked; delete() ignores it. */
  function Deleted(s: State, id: nat, removed: bool): (State, bool) {
    match ById(s.rows, id)
    case None => (s, false)
    case Some(row) =>
      var files := if row.filePath.Some? && removed then s.files - {row.filePath.value} else s.files;
      (State(Removed(s.rows, id), files), true)
  }

  predicate WellFormed(token: string) {
    |token| == 64 && forall i :: 0 <= i < |token| ==> '0' <= token[i] <= '9' || 'a' <= token[i] <= 'f'
  }

  /** What writeFileSync did: wrote everything, or failed leaving `left` (None: the file as it was).
      `removed` says whether an rmSync after a refusal would work; the handler ignores it. */
  datatype Write = Written(removed: bool) | Failed(left: Option<Content>)

  datatype Reply = BadToken | Denied(reason: Reason) | WriteFailed | Accepted(size: nat, digest: string)

  /** PUT /uploads/diag/:token. The two looks at the clock are `found` and `done`. */
  function Upload(s: State, token: string, body: Content, found: int, done: int, write: Write, sha: Content -> string): (State, Reply) {
    if !WellFormed(token) then (s, BadToken)
    else
      var rows := Swept(s.rows, found);
      match Eligible(rows, token, found)
      case Refused(reason) => (State(rows, s.files), Denied(reason))
      case Found(row) =>
        var path := PathOf(row);
        match write
        case Failed(left) => (State(rows, if left.Some? then s.files[path := left.value] else s.files), WriteFailed)
        case Written(removed) =>
          var (rows', outcome) := Consumed(rows, token, path, |body|, sha(body), done);
          match outcome
          case Found(_) => (State(rows', s.files[path := body]), Accepted(|body|, sha(body)))
          case Refused(reason) => (State(rows', if removed then s.files - {path} else s.files[path := body]), Denied(reason))
  }

  /** How many rows differ. */
  function Changes(rows: seq<Row>, rows': seq<Row>): nat
    requires |rows| == |rows'|
  {
    if rows == [] then 0 else (if rows[0] != rows'[0] then 1 else 0) + Changes(rows[1..], rows'[1..])
  }

  lemma {:induction false} ChangesSnoc(rows: seq<Row>, rows': seq<Row>, row: Row, row': Row)
    requires |rows| == |rows'|
    ensures Changes(rows + [row], rows' + [row']) == Changes(rows, rows') + (if row != row' then 1 else 0)
  {
    if rows != [] {
      assert (rows + [row])[1..] == rows[1..] + [row] && (rows' + [row'])[1..] == rows'[1..] + [row'];
      ChangesSnoc(rows[1..], rows'[1..], row, row');
    }
  }

  // ---- the class ----------------------------------------------------------------------------

  class DiagnosticsStore {
    var rows: seq<Row>
    var files: map<Path, Content>
    const sha: Content -> string

    function View(): State
      reads this
    {
      State(rows, files)
    }

    constructor (digest: Content -> string)
      ensures View() == Empty && sha == digest
    {
      rows, files, sha := [], map[], digest;
    }

    method SweepExpired(now: int) returns (changes: nat)
      modifies this`rows
      ensures rows == Swept(old(rows), now)
      ensures |rows| == |old(rows)| && forall i :: 0 <= i < |rows| ==>
        if old(rows)[i].status == Pending && old(rows)[i].expiresAt < now then rows[i] == old(rows)[i].(status := Expired)
        else rows[i] == old(rows)[i]
      ensures changes == Changes(old(rows), rows)
    {
      changes := 0;
      var i := 0;
      while i < |rows|
        invariant 0 <= i <= |rows| == |old(rows)|
        invariant forall k :: 0 <= k < i ==> rows[k] == Due(old(rows)[k], now)
        invariant forall k :: i <= k < |rows| ==> rows[k] == old(rows)[k]
        invariant changes == Changes(old(rows)[..i], rows[..i])
      {
        ghost var (was, before) := (old(rows)[..i], rows[..i]);
        assert old(rows)[..i + 1] == was + [old(rows)[i]];
        if rows[i].status == Pending && rows[i].expiresAt < now {
          rows := rows[i := rows[i].(status := Expired)];
          changes := changes + 1;
        }
        assert rows[..i + 1] == before + [rows[i]];
        ChangesSnoc(was, before, old(rows)[i], rows[i]);
        i := i + 1;
      }
      assert rows[..|rows|] == rows && old(rows)[..|rows|] == old(rows);
    }

    method Issue(request: Request, token: string, now: int) returns (issued: Option<Row>)
      modifies this`rows
      ensures (View(), issued) == Issued(old(View()), request, token, now)
    {
      var _ := SweepExpired(now);
      if ByToken(rows, token).Some? { return None; }
      var row := NewRow(rows, request, token, now);
      rows := rows + [row];
      return Some(row);
    }

    method FindPending(token: string, now: int) returns (found: Lookup)
      modifies this`rows
      ensures rows == Swept(old(rows), now) && found == Eligible(rows, token, now)
    {
      var _ := SweepExpired(now);
      found := Eligible(rows, token, now);
    }

    method Consume(token: string, path: Path, size: nat, digest: string, now: int) returns (outcome: Lookup)
      modifies this`rows
      ensures (rows, outcome) == Consumed(old(rows), token, path, size, digest, now)
    {
      var _ := SweepExpired(now);
      outcome := Eligible(rows, token, now);
      if outcome.Found? {
        rows := Updated(rows, outcome.row.id, now, path, size, digest);
        outcome := Found(Received(outcome.row, now, path, size, digest));
      }
    }

    method Delete(id: nat, removed: bool) returns (ok: bool)
      modifies this
      ensures (View(), ok) == Deleted(old(View()), id, removed)
    {
      var row := ById(rows, id);
      if row.None? { return false; }
      if row.value.filePath.Some? && removed { files := files - {row.value.filePath.value}; }
      rows := Removed(rows, id);
      return true;
    }

    method HandleUpload(token: string, body: Content, found: int, done: int, write: Write) returns (reply: Reply)
      modifies this
      ensures (View(), reply) == Upload(old(View()), token, body, found, done, write, sha)
    {
      hide WellFormed, Swept, Updated, ByToken, Cleaned;
      if !WellFormed(token) { return BadToken; }
      var pending := FindPending(token, found);
      if pending.Refused? { return Denied(pending.reason); }
      var path := PathOf(pending.row);
      match write {
        case Failed(left) =>
          if left.Some? { files := files[path := left.value]; }
          return WriteFailed;
        case Written(_) =>
          files := files[path := body];
      }
      var outcome := Consume(token, path, |body|, sha(body), done);
      if outcome.Refused? {
        if write.removed { files := files - {path}; }
        assert write.removed ==> files == old(files) - {path};
        return Denied(outcome.reason);
      }
      return Accepted(|body|, sha(body));
    }
  }

  // ---- runs -------------------------------------------------------------------------------------

  datatype Op =
    | Issue(request: Request, token: string, now: int)
    | Put(token: string, body: Content, found: int, done: int, write: Write)
    | Sweep(now: int)
    | Delete(id: nat, removed: bool)

  function Do(s: State, op: Op, sha: Content -> string): State {
    match op
    case Issue(request, token, now) => Issued(s, request, token, now).0
    case Put(token, body, found, done, write) => Upload(s, token, body, found, done, write, sha).0
    case Sweep(now) => s.(rows := Swept(s.rows, now))
    case Delete(id, removed) => Deleted(s, id, removed).0
  }

  function Run(s: State, ops: seq<Op>, sha: Content -> string): State
    decreases |ops|
  {
    if ops == [] then s else Run(Do(s, ops[0], sha), ops[1..], sha)
  }

  /** The clock never goes back. */
  predicate Timely(op: Op, clock: int) {
    match op
    case Issue(_, _, now) => clock <= now
    case Put(_, _, found, done, _) => clock <= found <= done
    case Sweep(now) => clock <= now
    case Delete(_, _) => true
  }

  function After(op: Op, clock: int): int {
    match op
    case Issue(_, _, now) => now
    case Put(_, _, _, done, _) => done
    case Sweep(now) => now
    case Delete(_, _) => clock
  }

  predicate TimelyRun(ops: seq<Op>, clock: int) {
    ops != [] ==> Timely(ops[0], clock) && TimelyRun(ops[1..], After(ops[0], clock))
  }

  // ---- the table stays a table ---------------------------------------------------------------------------

  /** Ids grow along the table, and no two rows share a token. */
  predicate Keyed(rows: seq<Row>) {
    forall i, j :: 0 <= i < j < |rows| ==> Apart(rows[i], rows[j])
  }

  predicate Apart(row: Row, other: Row) {
    row.id < other.id && row.token != other.token
  }

  lemma {:induction false} RemovedRows(rows: seq<Row>, id: nat)
    ensures forall row :: row in Removed(rows, id) <==> row in rows && row.id != id
  {
    if rows != [] {
      RemovedRows(rows[1..], id);
      assert rows == [rows[0]] + rows[1..];
    }
  }


  lemma TailKeyed(rows: seq<Row>)
    requires Keyed(rows) && rows != []
    ensures Keyed(rows[1..]) && forall other :: other in rows[1..] ==> Apart(rows[0], other)
  {
    hide Apart;
    forall other | other in rows[1..]
      ensures Apart(rows[0], other)
    {
      var i :| 0 <= i < |rows[1..]| && rows[1..][i] == other;
      assert Apart(rows[0], rows[i + 1]);
    }
    forall i, j | 0 <= i < j < |rows[1..]|
      ensures Apart(rows[1..][i], rows[1..][j])
    {
      assert Apart(rows[i + 1], rows[j + 1]);
    }
  }

  lemma ConsKeyed(row: Row, rest: seq<Row>)
    requires Keyed(rest) && forall other :: other in rest ==> Apart(row, other)
    ensures Keyed([row] + rest)
  {
    hide Apart;
    var all := [row] + rest;
    forall i, j | 0 <= i < j < |all|
      ensures Apart(all[i], all[j])
    {
      if i == 0 {
        assert all[j] == rest[j - 1] && rest[j - 1] in rest;
      } else {
        assert Apart(rest[i - 1], rest[j - 1]);
      }
    }
  }

  lemma {:induction false} RemovedKeyed(rows: seq<Row>, id: nat)
    requires Keyed(rows)
    ensures Keyed(Removed(rows, id))
  {
    if rows != [] {
      hide Keyed, Apart;
      var rest := Removed(rows[1..], id);
      TailKeyed(rows);
      RemovedKeyed(rows[1..], id);
      RemovedRows(rows[1..], id);
      if rows[0].id != id { ConsKeyed(rows[0], rest); }
    }
  }

  lemma {:induction false} RemovedPaths(rows: seq<Row>, id: nat)
    requires DistinctPaths(rows)
    ensures DistinctPaths(Removed(rows, id))
  {
    if rows != [] {
      RemovedPaths(rows[1..], id);
      RemovedRows(rows[1..], id);
      var rest := Removed(rows[1..], id);
      forall row | row in rest ensures PathOf(rows[0]) != PathOf(row) {
        var i :| 0 <= i < |rows[1..]| && rows[1..][i] == row;
        assert rows[i + 1] == row;
      }
      hide PathOf;
      assert forall i :: 0 <= i < |rest| ==> rest[i] in rest;
      assert DistinctPaths([rows[0]] + rest);
    }
  }

  lemma KeyedBySame(rows: seq<Row>, rows': seq<Row>)
    requires Keyed(rows) && |rows'| == |rows|
    requires forall i :: 0 <= i < |rows| ==> rows'[i].id == rows[i].id && rows'[i].token == rows[i].token
    ensures Keyed(rows')
  {
  }

  lemma SweptKeyed(rows: seq<Row>, now: int)
    requires Keyed(rows)
    ensures Keyed(Swept(rows, now))
  {
    hide Keyed;
    KeyedBySame(rows, Swept(rows, now));
  }

  lemma IssueKeyed(rows: seq<Row>, request: Request, token: string, now: int)
    requires Keyed(rows) && ByToken(rows, token).None?
    ensures Keyed(rows + [NewRow(rows, request, token, now)])
  {
    hide ByToken, MaxId, MaxRequest;
    assert forall i :: 0 <= i < |rows| ==> rows[i] in rows;
  }

  lemma PutKeyed(s: State, op: Op, sha: Content -> string)
    requires op.Put?
    ensures |Do(s, op, sha).rows| == |s.rows|
    ensures forall i :: 0 <= i < |s.rows| ==> SameRow(s.rows[i], Do(s, op, sha).rows[i])
  {
    hide Swept, Updated, ByToken, Cleaned;
  }

  /** What no upload and no sweep changes. */
  predicate SameRow(row: Row, row': Row) {
    row'.id == row.id && row'.token == row.token && row'.cpId == row.cpId && row'.requestId == row.requestId
  }

  lemma DoKeyed(s: State, op: Op, sha: Content -> string)
    requires Keyed(s.rows)
    ensures Keyed(Do(s, op, sha).rows)
  {
    hide Swept, ByToken, Upload, Keyed, NewRow;
    match op
    case Issue(request, token, now) =>
      KeyedBySame(s.rows, Swept(s.rows, now));
      if ByToken(Swept(s.rows, now), token).None? { IssueKeyed(Swept(s.rows, now), request, token, now); }
    case Put(_, _, _, _, _) =>
      PutKeyed(s, op, sha);
      KeyedBySame(s.rows, Do(s, op, sha).rows);
    case Sweep(now) => KeyedBySame(s.rows, Swept(s.rows, now));
    case Delete(id, _) => RemovedKeyed(s.rows, id);
  }

  // ---- the life of a token ---------------------------------------------------------------------------------

  predicate Alive(row: Row, clock: int) {
    && row.issuedAt <= clock
    && (row.status == Uploaded <==> row.receivedAt.Some?)
    && (row.receivedAt.Some? ==> row.issuedAt <= row.receivedAt.value <= row.expiresAt && row.receivedAt.value <= clock)
    && (row.status == Expired ==> row.expiresAt < clock)
  }

  predicate Lives(rows: seq<Row>, clock: int) {
    forall row :: row in rows ==> Alive(row, clock)
  }

  lemma SweptLives(rows: seq<Row>, clock: int, now: int)
    requires Lives(rows, clock) && clock <= now
    ensures Lives(Swept(rows, now), now)
  {
    forall row | row in Swept(rows, now)
      ensures Alive(row, now)
    {
      var i :| 0 <= i < |rows| && Swept(rows, now)[i] == row;
      assert rows[i] in rows;
    }
  }

  lemma UpdatedLives(rows: seq<Row>, row: Row, now: int, path: Path, size: nat, digest: string)
    requires Lives(rows, now) && Keyed(rows) && row in rows && now <= row.expiresAt
    ensures Lives(Updated(rows, row.id, now, path, size, digest), now)
  {
    var rows' := Updated(rows, row.id, now, path, size, digest);
    forall r | r in rows'
      ensures Alive(r, now)
    {
      var i :| 0 <= i < |rows| && rows'[i] == r;
      var j :| 0 <= j < |rows| && rows[j] == row;
      assert rows[i] in rows && (rows[i].id == row.id ==> i == j);
    }
  }

  lemma PutLives(s: State, op: Op, sha: Content -> string, clock: int)
    requires Keyed(s.rows) && Lives(s.rows, clock) && Timely(op, clock) && op.Put?
    ensures Lives(Do(s, op, sha).rows, op.done)
  {
    hide Swept, Updated, ByToken, Cleaned, Alive, Keyed, Lives;
    var rows := Swept(s.rows, op.found);
    var swept := Swept(rows, op.done);
    SweptLives(s.rows, clock, op.found);
    SweptLives(rows, op.found, op.done);
    LivesOn(s.rows, clock, op.done);
    LivesOn(rows, op.found, op.done);
    KeyedBySame(s.rows, rows);
    KeyedBySame(rows, swept);
    var (found, done) := (Eligible(rows, op.token, op.found), Eligible(swept, op.token, op.done));
    if done.Found? && found.Found? {
      UpdatedLives(swept, done.row, op.done, PathOf(found.row), |op.body|, sha(op.body));
    }
  }

  lemma LivesOn(rows: seq<Row>, clock: int, later: int)
    requires Lives(rows, clock) && clock <= later
    ensures Lives(rows, later)
  {
  }

  lemma DoLives(s: State, op: Op, sha: Content -> string, clock: int)
    requires Keyed(s.rows) && Lives(s.rows, clock) && Timely(op, clock)
    ensures Lives(Do(s, op, sha).rows, After(op, clock))
  {
    hide Swept, ByToken, Upload, Keyed, MaxId, MaxRequest, Removed;
    match op
    case Issue(_, _, now) => SweptLives(s.rows, clock, now);
    case Sweep(now) => SweptLives(s.rows, clock, now);
    case Delete(id, _) => RemovedRows(s.rows, id);
    case Put(_, _, _, _, _) => PutLives(s, op, sha, clock);
  }

  /** The time of the last operation. */
  function EndOf(ops: seq<Op>, clock: int): int {
    if ops == [] then clock else EndOf(ops[1..], After(ops[0], clock))
  }

  /** In every reachable state, at the time of its last operation: a row is uploaded exactly when it
      has been received, between its issue and its expiry; an expired row is past its expiry. */
  lemma {:induction false} RunLives(s: State, ops: seq<Op>, sha: Content -> string, clock: int)
    requires Keyed(s.rows) && Lives(s.rows, clock) && TimelyRun(ops, clock)
    ensures Keyed(Run(s, ops, sha).rows) && Lives(Run(s, ops, sha).rows, EndOf(ops, clock))
    ensures clock <= EndOf(ops, clock)
    decreases |ops|
  {
    if ops != [] {
      hide Do, Keyed, Lives;
      DoKeyed(s, ops[0], sha);
      DoLives(s, ops[0], sha, clock);
      RunLives(Do(s, ops[0], sha), ops[1..], sha, After(ops[0], clock));
    }
  }

  lemma EligibleWell(rows: seq<Row>, token: string, now: int)
    requires Lives(rows, now)
    ensures Eligible(rows, token, now) != Refused(WrongStatus)
  {
    hide ByToken;
  }

  lemma NoWrongStatus(s: State, token: string, body: Content, found: int, done: int, write: Write, sha: Content -> string, clock: int)
    requires Lives(s.rows, clock) && clock <= found <= done
    ensures Eligible(Swept(s.rows, found), token, found) != Refused(WrongStatus)
    ensures Upload(s, token, body, found, done, write, sha).1 != Denied(WrongStatus)
  {
    hide Swept, Updated, Lives, Eligible, WellFormed, PathOf;
    SweptLives(s.rows, clock, found);
    SweptLives(Swept(s.rows, found), found, done);
    EligibleWell(Swept(s.rows, found), token, found);
    EligibleWell(Swept(Swept(s.rows, found), done), token, done);
  }

  /** After every run with a clock that does not go back, wrong_status is the answer neither to a
      lookup nor to an upload. */
  lemma NeverWrongStatus(ops: seq<Op>, start: int, token: string, body: Content, found: int, done: int, write: Write, sha: Content -> string)
    requires TimelyRun(ops, start) && EndOf(ops, start) <= found <= done
    ensures var s := Run(Empty, ops, sha);
      && Eligible(Swept(s.rows, found), token, found) != Refused(WrongStatus)
      && Upload(s, token, body, found, done, write, sha).1 != Denied(WrongStatus)
  {
    hide Run, Upload, Eligible, Swept;
    RunLives(Empty, ops, sha, start);
    NoWrongStatus(Run(Empty, ops, sha), token, body, found, done, write, sha, EndOf(ops, start));
  }

  lemma {:induction false} SweptByToken(rows: seq<Row>, token: string, now: int)
    ensures ByToken(Swept(rows, now), token) == match ByToken(rows, token) case None => None case Some(row) => Some(Due(row, now))
  {
    if rows != [] {
      SweptByToken(rows[1..], token, now);
      assert Swept(rows, now)[1..] == Swept(rows[1..], now);
    }
  }

  /** A row under `token` that has not been received and is valid at `done`. */
  ghost predicate Open(rows: seq<Row>, token: string, done: int) {
    exists row :: row in rows && row.token == token && row.receivedAt.None? && done <= row.expiresAt
  }

  lemma AcceptedAt(s: State, token: string, body: Content, found: int, done: int, write: Write, sha: Content -> string, clock: int)
    requires Keyed(s.rows) && Lives(s.rows, clock) && clock <= found <= done
    ensures Upload(s, token, body, found, done, write, sha).1 == Accepted(|body|, sha(body)) <==>
      WellFormed(token) && write.Written? && Open(s.rows, token, done)
  {
    hide Swept, Updated, ByToken, WellFormed, Keyed, PathOf;
    SweptByToken(s.rows, token, found);
    SweptByToken(Swept(s.rows, found), token, done);
    match ByToken(s.rows, token)
    case None =>
    case Some(row) =>
      assert Alive(row, clock);
      forall other | other in s.rows && other.token == token
        ensures other == row
      {
        TokenFinds(s.rows, other);
      }
  }

  /** After every run: an upload is accepted exactly when the token is well formed, known, unused and
      still valid when the bytes are down. */
  lemma UploadAcceptedIff(ops: seq<Op>, start: int, token: string, body: Content, found: int, done: int, write: Write, sha: Content -> string)
    requires TimelyRun(ops, start) && EndOf(ops, start) <= found <= done
    ensures var s := Run(Empty, ops, sha);
      Upload(s, token, body, found, done, write, sha).1 == Accepted(|body|, sha(body)) <==>
        WellFormed(token) && write.Written? && Open(s.rows, token, done)
  {
    hide Run, Upload, WellFormed, Open;
    RunLives(Empty, ops, sha, start);
    AcceptedAt(Run(Empty, ops, sha), token, body, found, done, write, sha, EndOf(ops, start));
  }

  lemma IssuedAt(s: State, request: Request, token: string, now: int, body: Content, found: int, done: int, removed: bool,
                 sha: Content -> string, clock: int)
    requires Keyed(s.rows) && Lives(s.rows, clock) && clock <= now <= found <= done && WellFormed(token)
    requires Issued(s, request, token, now).1.Some?
    ensures Upload(Issued(s, request, token, now).0, token, body, found, done, Written(removed), sha).1 == Accepted(|body|, sha(body))
      <==> done <= now + request.ttl
  {
    var s' := Issued(s, request, token, now).0;
    var row := NewRow(Swept(s.rows, now), request, token, now);
    assert row in s'.rows && row.token == token && row.receivedAt.None? && row.expiresAt == now + request.ttl;
    assert Do(s, Op.Issue(request, token, now), sha) == s';
    hide Issued, Do, NewRow, Keyed, Lives, Upload, WellFormed;
    DoKeyed(s, Op.Issue(request, token, now), sha);
    DoLives(s, Op.Issue(request, token, now), sha, clock);
    AcceptedAt(s', token, body, found, done, Written(removed), sha, now);
    forall other | other in s'.rows && other.token == token
      ensures other == row
    {
      TokenFinds(s'.rows, row);
      TokenFinds(s'.rows, other);
    }
  }

  // ---- what an issue and an upload leave --------------------------------------------------------------

  /** 64 digits of lower-case hexadecimal. */
  predicate Hex64(token: string) {
    |token| == 64 && forall i :: 0 <= i < |token| ==> ('0' <= token[i] && token[i] <= '9') || ('a' <= token[i] && token[i] <= 'f')
  }

  /** `n` is the largest of the charger's request ids, 0 without one. */
  ghost predicate Largest(rows: seq<Row>, cpId: string, n: nat) {
    && (forall row :: row in rows && row.cpId == cpId ==> row.requestId <= n)
    && (n == 0 || exists row :: row in rows && row.cpId == cpId && row.requestId == n)
  }

  lemma {:induction false} MaxIsLargest(rows: seq<Row>, cpId: string)
    ensures Largest(rows, cpId, MaxRequest(rows, cpId))
  {
    if rows != [] {
      MaxIsLargest(rows[1..], cpId);
      assert rows[0] in rows && forall row :: row in rows[1..] ==> row in rows;
    }
  }

  lemma {:induction false} MaxIdIsLargest(rows: seq<Row>)
    ensures MaxId(rows) == 0 || exists row :: row in rows && row.id == MaxId(rows)
  {
    if rows != [] {
      MaxIdIsLargest(rows[1..]);
      assert rows[0] in rows && forall row :: row in rows[1..] ==> row in rows;
    }
  }

  lemma DueKeeps(row: Row, now: int)
    ensures var row' := Due(row, now); row'.id == row.id && row'.cpId == row.cpId && row'.requestId == row.requestId
  {
  }

  lemma SweptKeepsIds(rows: seq<Row>, now: int, cpId: string, n: nat)
    requires Largest(Swept(rows, now), cpId, n)
    ensures Largest(rows, cpId, n)
  {
    hide Swept, Due;
    var swept := Swept(rows, now);
    forall row | row in rows && row.cpId == cpId
      ensures row.requestId <= n
    {
      var i :| 0 <= i < |rows| && rows[i] == row;
      DueKeeps(row, now);
      assert swept[i] in swept;
    }
    if n > 0 {
      var row :| row in swept && row.cpId == cpId && row.requestId == n;
      var i :| 0 <= i < |rows| && swept[i] == row;
      DueKeeps(rows[i], now);
      assert rows[i] in rows && rows[i].requestId == n;
    }
  }

  lemma SweptIds(rows: seq<Row>, now: int)
    ensures var most := MaxId(Swept(rows, now));
      (forall other :: other in rows ==> other.id <= most) && (most == 0 || exists other :: other in rows && other.id == most)
  {
    var swept := Swept(rows, now);
    MaxIdIsLargest(swept);
    hide MaxId;
    forall other | other in rows
      ensures other.id <= MaxId(swept)
    {
      var i :| 0 <= i < |rows| && rows[i] == other;
      assert swept[i] in swept;
    }
    if MaxId(swept) > 0 {
      var other :| other in swept && other.id == MaxId(swept);
      var i :| 0 <= i < |swept| && swept[i] == other;
      assert rows[i] in rows;
    }
  }

  /** The row of an issue: under the request id that was asked for, or one more than the charger's largest;
      pending, from now until its time to live is over, with nothing received. */
  ghost predicate IssuedFor(rows: seq<Row>, row: Row, request: Request, token: string, now: int) {
    && row == Row(row.id, request.cpId, request.command, row.requestId, token, now, request.issuedBy, now + request.ttl,
                  None, None, None, None, Pending)
    && (forall other :: other in rows ==> other.id < row.id)
    && (row.id == 1 || exists other :: other in rows && other.id == row.id - 1)
    && (request.requestId.Some? ==> row.requestId == request.requestId.value)
    && (request.requestId.None? ==> row.requestId >= 1 && Largest(rows, request.cpId, row.requestId - 1))
  }

  lemma NewRowIsFor(rows: seq<Row>, request: Request, token: string, now: int)
    ensures IssuedFor(rows, NewRow(Swept(rows, now), request, token, now), request, token, now)
  {
    var swept := Swept(rows, now);
    SweptIds(rows, now);
    MaxIsLargest(swept, request.cpId);
    SweptKeepsIds(rows, now, request.cpId, MaxRequest(swept, request.cpId));
    hide Largest, MaxRequest, MaxId, Swept;
  }

  /** An issue under a new token adds that row, behind the others. */
  lemma IssueAdds(s: State, request: Request, token: string, now: int)
    requires forall row :: row in s.rows ==> row.token != token
    ensures var (s', issued) := Issued(s, request, token, now);
      && issued.Some? && |s'.rows| == |s.rows| + 1 && s'.rows[|s.rows|] == issued.value && s'.files == s.files
      && IssuedFor(s.rows, issued.value, request, token, now)
  {
    SweptByToken(s.rows, token, now);
    NewRowIsFor(s.rows, request, token, now);
    hide IssuedFor, NewRow, ByToken;
  }

  /** What an upload under the token of `row` answers, and what it does to the files. */
  predicate UploadDoes(s: State, s': State, reply: Reply, row: Row, body: Content, found: int, done: int, write: Write, sha: Content -> string) {
    var path := Path(Sanitise(row.cpId), row.requestId);
    if row.receivedAt.Some? then reply == Denied(AlreadyConsumed) && s'.files == s.files
    else if row.expiresAt < found then reply == Denied(TokenExpired) && s'.files == s.files
    else match write
      case Failed(left) => reply == WriteFailed && s'.files == (if left.Some? then s.files[path := left.value] else s.files)
      case Written(removed) =>
        if row.expiresAt < done then
          reply == Denied(TokenExpired) && s'.files == (if removed then s.files - {path} else s.files[path := body])
        else
          && reply == Accepted(|body|, sha(body)) && s'.files == s.files[path := body]
          && row.(status := Uploaded, receivedAt := Some(done), filePath := Some(path), fileSize := Some(|body|), sha256 := Some(sha(body)))
             in s'.rows
  }

  lemma ReceivedIsThere(rows: seq<Row>, row: Row, found: int, done: int, path: Path, size: nat, digest: string)
    requires row in rows && found <= row.expiresAt && done <= row.expiresAt
    ensures Received(row, done, path, size, digest) in Updated(Swept(Swept(rows, found), done), row.id, done, path, size, digest)
  {
    var i :| 0 <= i < |rows| && rows[i] == row;
    var rows' := Updated(Swept(Swept(rows, found), done), row.id, done, path, size, digest);
    assert rows'[i] == Received(row, done, path, size, digest);
  }

  lemma EligibleOf(rows: seq<Row>, row: Row, now: int, clock: int)
    requires Keyed(rows) && Lives(rows, clock) && clock <= now && row in rows
    ensures Eligible(Swept(rows, now), row.token, now) ==
      if row.receivedAt.Some? then Refused(AlreadyConsumed) else if row.expiresAt < now then Refused(TokenExpired) else Found(row)
    ensures row.receivedAt.None? && now <= row.expiresAt ==> row in Swept(rows, now)
  {
    TokenFinds(rows, row);
    SweptByToken(rows, row.token, now);
    assert Alive(row, clock);
    var i :| 0 <= i < |rows| && rows[i] == row;
    assert Swept(rows, now)[i] in Swept(rows, now);
    hide Swept, ByToken, Keyed, Lives;
  }

  lemma UploadOf(s: State, row: Row, body: Content, found: int, done: int, write: Write, sha: Content -> string, clock: int)
    requires Keyed(s.rows) && Lives(s.rows, clock) && clock <= found <= done && row in s.rows && WellFormed(row.token)
    ensures var (s', reply) := Upload(s, row.token, body, found, done, write, sha); UploadDoes(s, s', reply, row, body, found, done, write, sha)
  {
    hide Swept, Updated, ByToken, WellFormed, Keyed, Sanitise, Lives, Eligible;
    EligibleOf(s.rows, row, found, clock);
    var rows := Swept(s.rows, found);
    KeyedBySame(s.rows, rows);
    SweptLives(s.rows, clock, found);
    if row.receivedAt.None? && found <= row.expiresAt {
      EligibleOf(rows, row, done, found);
      if done <= row.expiresAt { ReceivedIsThere(s.rows, row, found, done, PathOf(row), |body|, sha(body)); }
    }
  }

  lemma UnknownUpload(s: State, token: string, body: Content, found: int, done: int, write: Write, sha: Content -> string)
    requires forall row :: row in s.rows ==> row.token != token
    ensures var (s', reply) := Upload(s, token, body, found, done, write, sha);
      s'.files == s.files && reply == if WellFormed(token) then Denied(UnknownToken) else BadToken
  {
    SweptByToken(s.rows, token, found);
    hide Swept, Updated, ByToken, WellFormed, Sanitise;
  }

  /** After every run, for every upload: a token that is not 64 hexadecimal digits is bad, and one of no row unknown;
      else the answer and the files are those of its row: consumed, expired before the write, the write
      failed, expired during the write - then the file is removed, or left when that fails - or accepted. */
  lemma UploadOutcomes(ops: seq<Op>, start: int, token: string, body: Content, found: int, done: int, write: Write, sha: Content -> string)
    requires TimelyRun(ops, start) && EndOf(ops, start) <= found <= done
    ensures var s := Run(Empty, ops, sha);
      var (s', reply) := Upload(s, token, body, found, done, write, sha);
      && (!Hex64(token) ==> reply == BadToken && s' == s)
      && (Hex64(token) && (forall row :: row in s.rows ==> row.token != token) ==> reply == Denied(UnknownToken) && s'.files == s.files)
      && forall row :: Hex64(token) && row in s.rows && row.token == token ==> UploadDoes(s, s', reply, row, body, found, done, write, sha)
  {
    var s := Run(Empty, ops, sha);
    RunLives(Empty, ops, sha, start);
    assert WellFormed(token) <==> Hex64(token);
    if !WellFormed(token) { BadUpload(s, token, body, found, done, write, sha); }
    hide Run, Upload, UploadDoes, WellFormed, Hex64;
    if forall row :: row in s.rows ==> row.token != token { UnknownUpload(s, token, body, found, done, write, sha); }
    forall row | WellFormed(token) && row in s.rows && row.token == token
      ensures UploadDoes(s, Upload(s, token, body, found, done, write, sha).0, Upload(s, token, body, found, done, write, sha).1,
                         row, body, found, done, write, sha)
    {
      UploadOf(s, row, body, found, done, write, sha, EndOf(ops, start));
    }
  }

  lemma BadUpload(s: State, token: string, body: Content, found: int, done: int, write: Write, sha: Content -> string)
    requires !WellFormed(token)
    ensures Upload(s, token, body, found, done, write, sha) == (s, BadToken)
  {
    hide WellFormed;
  }

  // ---- from issue to upload ---------------------------------------------------------------------------

  /** From issue to upload, after every run: an unused token is accepted exactly until its time to
      live is over. */
  lemma IssuedUntilExpiry(ops: seq<Op>, start: int, request: Request, token: string, now: int, body: Content, found: int, done: int,
                          removed: bool, sha: Content -> string)
    requires TimelyRun(ops, start) && EndOf(ops, start) <= now <= found <= done && WellFormed(token)
    requires Issued(Run(Empty, ops, sha), request, token, now).1.Some?
    ensures var s := Issued(Run(Empty, ops, sha), request, token, now).0;
      Upload(s, token, body, found, done, Written(removed), sha).1 == Accepted(|body|, sha(body)) <==> done <= now + request.ttl
  {
    hide Run, Upload, WellFormed, Issued;
    RunLives(Empty, ops, sha, start);
    IssuedAt(Run(Empty, ops, sha), request, token, now, body, found, done, removed, sha, EndOf(ops, start));
  }

  // ---- expiry -----------------------------------------------------------------------------------------

  /** The time of the last sweep after `op`, `last` being that before it. An upload sweeps when it looks its
      token up, and again when it has written. */
  ghost function SweepTime(s: State, op: Op, last: int): int {
    match op
    case Issue(_, _, now) => now
    case Sweep(now) => now
    case Delete(_, _) => last
    case Put(token, _, found, done, write) =>
      if !WellFormed(token) then last else if write.Written? && Open(s.rows, token, found) then done else found
  }

  ghost function LastSweep(s: State, ops: seq<Op>, sha: Content -> string, last: int): int
    decreases |ops|
  {
    if ops == [] then last else LastSweep(Do(s, ops[0], sha), ops[1..], sha, SweepTime(s, ops[0], last))
  }

  /** A row is expired exactly when it was never received and its time was over at `last`. */
  predicate ExpiredAt(row: Row, last: int) {
    row.status == Expired <==> row.receivedAt.None? && row.expiresAt < last
  }

  predicate AllExpiredAt(rows: seq<Row>, last: int) {
    forall row :: row in rows ==> ExpiredAt(row, last)
  }

  lemma SweptExpires(rows: seq<Row>, clock: int, last: int, now: int)
    requires Lives(rows, clock) && AllExpiredAt(rows, last) && last <= now
    ensures AllExpiredAt(Swept(rows, now), now)
  {
    forall row | row in Swept(rows, now)
      ensures ExpiredAt(row, now)
    {
      var i :| 0 <= i < |rows| && Swept(rows, now)[i] == row;
      assert rows[i] in rows && Alive(rows[i], clock);
    }
  }

  lemma UpdatedExpires(rows: seq<Row>, row: Row, now: int, path: Path, size: nat, digest: string, last: int)
    requires AllExpiredAt(rows, last)
    ensures AllExpiredAt(Updated(rows, row.id, now, path, size, digest), last)
  {
    var rows' := Updated(rows, row.id, now, path, size, digest);
    forall r | r in rows'
      ensures ExpiredAt(r, last)
    {
      var i :| 0 <= i < |rows| && rows'[i] == r;
      assert rows[i] in rows;
    }
  }

  lemma FoundIsOpen(rows: seq<Row>, clock: int, token: string, now: int)
    requires Keyed(rows) && Lives(rows, clock) && clock <= now
    ensures Eligible(Swept(rows, now), token, now).Found? <==> Open(rows, token, now)
  {
    hide Swept, ByToken, Keyed;
    SweptByToken(rows, token, now);
    match ByToken(rows, token)
    case None =>
    case Some(row) =>
      assert Alive(row, clock);
      forall other | other in rows && other.token == token
        ensures other == row
      {
        TokenFinds(rows, other);
      }
  }

  lemma PutExpires(s: State, op: Op, sha: Content -> string, clock: int, last: int)
    requires Keyed(s.rows) && Lives(s.rows, clock) && AllExpiredAt(s.rows, last) && last <= clock && Timely(op, clock) && op.Put?
    ensures AllExpiredAt(Do(s, op, sha).rows, SweepTime(s, op, last))
  {
    hide Swept, Updated, ByToken, Keyed, Lives, AllExpiredAt, WellFormed, Open, Eligible, PathOf;
    var rows := Swept(s.rows, op.found);
    var swept := Swept(rows, op.done);
    SweptExpires(s.rows, clock, last, op.found);
    SweptLives(s.rows, clock, op.found);
    SweptExpires(rows, op.found, op.found, op.done);
    FoundIsOpen(s.rows, clock, op.token, op.found);
    var (found, done) := (Eligible(rows, op.token, op.found), Eligible(swept, op.token, op.done));
    if found.Found? && done.Found? {
      UpdatedExpires(swept, done.row, op.done, PathOf(found.row), |op.body|, sha(op.body), op.done);
    }
  }

  lemma DoExpires(s: State, op: Op, sha: Content -> string, clock: int, last: int)
    requires Keyed(s.rows) && Lives(s.rows, clock) && AllExpiredAt(s.rows, last) && last <= clock && Timely(op, clock)
    ensures AllExpiredAt(Do(s, op, sha).rows, SweepTime(s, op, last)) && SweepTime(s, op, last) <= After(op, clock)
  {
    hide Swept, ByToken, Upload, Keyed, MaxId, MaxRequest, Removed, Lives, Open, WellFormed;
    match op
    case Issue(_, _, now) => SweptExpires(s.rows, clock, last, now);
    case Sweep(now) => SweptExpires(s.rows, clock, last, now);
    case Delete(id, _) => RemovedRows(s.rows, id);
    case Put(_, _, _, _, _) => PutExpires(s, op, sha, clock, last);
  }

  lemma {:induction false} RunExpires(s: State, ops: seq<Op>, sha: Content -> string, clock: int, last: int)
    requires Keyed(s.rows) && Lives(s.rows, clock) && AllExpiredAt(s.rows, last) && last <= clock && TimelyRun(ops, clock)
    ensures AllExpiredAt(Run(s, ops, sha).rows, LastSweep(s, ops, sha, last))
    decreases |ops|
  {
    if ops != [] {
      hide Do, Keyed, Lives, AllExpiredAt, SweepTime;
      DoKeyed(s, ops[0], sha);
      DoLives(s, ops[0], sha, clock);
      DoExpires(s, ops[0], sha, clock, last);
      RunExpires(Do(s, ops[0], sha), ops[1..], sha, After(ops[0], clock), SweepTime(s, ops[0], last));
    }
  }

  /** After every run: with t the time of the last sweep, a row is expired exactly when it was never
      received and its expiry is before t; so no pending row is past t. */
  lemma ExpiredIff(ops: seq<Op>, start: int, sha: Content -> string, row: Row)
    requires TimelyRun(ops, start) && row in Run(Empty, ops, sha).rows
    ensures row.status == Expired <==> row.receivedAt.None? && row.expiresAt < LastSweep(Empty, ops, sha, start)
    ensures row.status == Pending ==> LastSweep(Empty, ops, sha, start) <= row.expiresAt
  {
    hide Run, LastSweep;
    RunExpires(Empty, ops, sha, start, start);
    RunLives(Empty, ops, sha, start);
    assert ExpiredAt(row, LastSweep(Empty, ops, sha, start)) && Alive(row, EndOf(ops, start));
  }

  // ---- one way ----------------------------------------------------------------------------------------

  /** One step of a row: it stays as it is, expires, or is received; only a pending row moves. */
  predicate Moves(row: Row, row': Row) {
    || row' == row
    || (row.status == Pending && row' == row.(status := Expired))
    || (row.status == Pending && row'.status == Uploaded && row'.receivedAt.Some?
        && row' == row.(status := Uploaded, receivedAt := row'.receivedAt, filePath := row'.filePath, fileSize := row'.fileSize, sha256 := row'.sha256))
  }

  predicate Fresh(row: Row) {
    row.status == Pending && row.receivedAt.None? && row.filePath.None?
  }

  lemma EligibleRow(rows: seq<Row>, token: string, now: int, i: nat)
    requires Keyed(rows) && Eligible(rows, token, now).Found? && i < |rows| && rows[i].id == Eligible(rows, token, now).row.id
    ensures rows[i] == Eligible(rows, token, now).row && rows[i].status == Pending && rows[i].token == token
  {
    var row := Eligible(rows, token, now).row;
    var j :| 0 <= j < |rows| && rows[j] == row;
    assert i == j;
  }

  /** Where row number i of the table afterwards comes from. */
  lemma RowComesFrom(s: State, op: Op, sha: Content -> string, i: nat)
    requires Keyed(s.rows) && i < |Do(s, op, sha).rows|
    ensures var row' := Do(s, op, sha).rows[i];
      || (exists row :: row in s.rows && row.id == row'.id && Moves(row, row'))
      || (Fresh(row') && op.Issue? && row'.token == op.token && (forall row :: row in s.rows ==> row.id != row'.id && row.token != row'.token))
  {
    hide Swept, ByToken, MaxId, MaxRequest, Removed, Upload, Keyed;
    var row' := Do(s, op, sha).rows[i];
    match op
    case Issue(_, _, now) =>
      if i < |s.rows| { assert s.rows[i] in s.rows && Moves(s.rows[i], row'); } else { IssuedIsNew(s, op, sha); }
    case Sweep(now) => assert s.rows[i] in s.rows && Moves(s.rows[i], row');
    case Delete(id, _) =>
      RemovedRows(s.rows, id);
      assert row' in s.rows && Moves(row', row');
    case Put(_, _, _, _, _) =>
      PutKeyed(s, op, sha);
      PutMoves(s, op, sha, i);
      assert s.rows[i] in s.rows;
  }

  lemma IssuedIsNew(s: State, op: Op, sha: Content -> string)
    requires op.Issue? && |Do(s, op, sha).rows| > |s.rows|
    ensures var row' := Do(s, op, sha).rows[|s.rows|];
      Fresh(row') && row'.token == op.token && forall row :: row in s.rows ==> row.id != row'.id && row.token != row'.token
  {
    hide Swept, ByToken, MaxId, MaxRequest;
    var rows := Swept(s.rows, op.now);
    forall row | row in s.rows
      ensures row.id <= MaxId(rows) && row.token != op.token
    {
      var k :| 0 <= k < |s.rows| && s.rows[k] == row;
      assert rows[k] in rows && rows[k].id == row.id && rows[k].token == row.token;
    }
  }

  /** Status moves one way only, on every operation: the row of an id is what it was or one move
      further, and a row under a new id is a pending one whose token was not in the table. */
  lemma StatusMovesOneWay(s: State, op: Op, sha: Content -> string)
    requires Keyed(s.rows)
    ensures forall row, row' :: row in s.rows && row' in Do(s, op, sha).rows && (row.id == row'.id || row.token == row'.token) ==> Moves(row, row')
    ensures forall row' :: row' in Do(s, op, sha).rows && (forall row :: row in s.rows ==> row.id != row'.id) ==>
      Fresh(row') && op.Issue? && row'.token == op.token
  {
    hide Do, Keyed;
    var rows' := Do(s, op, sha).rows;
    forall row, row' | row in s.rows && row' in rows' && (row.id == row'.id || row.token == row'.token)
      ensures Moves(row, row')
    {
      var i :| 0 <= i < |rows'| && rows'[i] == row';
      RowComesFrom(s, op, sha, i);
      var before :| before in s.rows && before.id == row'.id && Moves(before, row');
      SameIdOrToken(s.rows, before, row);
    }
    forall row' | row' in rows' && forall row :: row in s.rows ==> row.id != row'.id
      ensures Fresh(row') && op.Issue? && row'.token == op.token
    {
      var i :| 0 <= i < |rows'| && rows'[i] == row';
      RowComesFrom(s, op, sha, i);
    }
  }

  lemma SameIdOrToken(rows: seq<Row>, row: Row, other: Row)
    requires Keyed(rows) && row in rows && other in rows && (row.id == other.id || row.token == other.token)
    ensures row == other
  {
    var i :| 0 <= i < |rows| && rows[i] == row;
    var j :| 0 <= j < |rows| && rows[j] == other;
    assert i == j;
  }

  lemma PutMoves(s: State, op: Op, sha: Content -> string, i: nat)
    requires Keyed(s.rows) && op.Put? && i < |s.rows|
    ensures |Do(s, op, sha).rows| == |s.rows| && Moves(s.rows[i], Do(s, op, sha).rows[i])
  {
    hide Swept, Updated, ByToken, Cleaned, Keyed, Eligible, PathOf, WellFormed;
    var rows := Swept(s.rows, op.found);
    var swept := Swept(rows, op.done);
    KeyedBySame(s.rows, swept);
    var done := Eligible(swept, op.token, op.done);
    if done.Found? && swept[i].id == done.row.id {
      EligibleRow(swept, op.token, op.done, i);
    }
  }

  // ---- a token is consumed once ------------------------------------------------------------------------------

  predicate AcceptedHere(s: State, op: Op, token: string, sha: Content -> string) {
    op.Put? && op.token == token && Upload(s, op.token, op.body, op.found, op.done, op.write, sha).1.Accepted?
  }

  /** How many uploads under `token` the run accepts. */
  function Uses(s: State, ops: seq<Op>, token: string, sha: Content -> string): nat
    decreases |ops|
  {
    if ops == [] then 0
    else (if AcceptedHere(s, ops[0], token, sha) then 1 else 0) + Uses(Do(s, ops[0], sha), ops[1..], token, sha)
  }

  /** randomBytes: no token is issued twice. */
  predicate FreshTokens(ops: seq<Op>, seen: set<string>) {
    ops != [] ==>
      if ops[0].Issue? then ops[0].token !in seen && FreshTokens(ops[1..], seen + {ops[0].token}) else FreshTokens(ops[1..], seen)
  }

  predicate Usable(s: State, token: string) {
    ByToken(s.rows, token).Some? && ByToken(s.rows, token).value.receivedAt.None?
  }

  lemma {:induction false} UpdatedByToken(rows: seq<Row>, token: string, id: nat, now: int, path: Path, size: nat, digest: string)
    ensures ByToken(Updated(rows, id, now, path, size, digest), token) ==
      match ByToken(rows, token) case None => None
      case Some(row) => Some(if row.id == id then Received(row, now, path, size, digest) else row)
  {
    if rows != [] {
      UpdatedByToken(rows[1..], token, id, now, path, size, digest);
      assert Updated(rows, id, now, path, size, digest)[1..] == Updated(rows[1..], id, now, path, size, digest);
    }
  }

  lemma {:induction false} AppendedByToken(rows: seq<Row>, row: Row, token: string)
    ensures ByToken(rows + [row], token) == if ByToken(rows, token).Some? then ByToken(rows, token) else if row.token == token then Some(row) else None
  {
    if rows != [] {
      AppendedByToken(rows[1..], row, token);
      assert (rows + [row])[1..] == rows[1..] + [row];
    }
  }

  lemma {:induction false} RemovedByToken(rows: seq<Row>, id: nat, token: string)
    requires Keyed(rows)
    ensures ByToken(Removed(rows, id), token) == if ByToken(rows, token).Some? && ByToken(rows, token).value.id != id then ByToken(rows, token) else None
  {
    if rows != [] {
      assert rows == [rows[0]] + rows[1..];
      RemovedByToken(rows[1..], id, token);
      if rows[0].token == token && rows[0].id == id {
        forall row | row in rows[1..] ensures row.token != token {
          var i :| 0 <= i < |rows[1..]| && rows[1..][i] == row;
          assert rows[i + 1] == row;
        }
      }
    }
  }

  /** A token once issued never becomes usable again, and an accepted upload uses it up. */
  lemma PutUses(s: State, op: Op, token: string, sha: Content -> string)
    requires op.Put?
    ensures Usable(Do(s, op, sha), token) ==> Usable(s, token) && !AcceptedHere(s, op, token, sha)
    ensures AcceptedHere(s, op, token, sha) ==> Usable(s, token)
  {
    hide Swept, Updated, ByToken, Cleaned, PathOf, WellFormed;
    var rows := Swept(s.rows, op.found);
    var swept := Swept(rows, op.done);
    SweptByToken(s.rows, token, op.found);
    SweptByToken(rows, token, op.done);
    var found := Eligible(rows, op.token, op.found);
    var done := Eligible(swept, op.token, op.done);
    if found.Found? && done.Found? {
      UpdatedByToken(swept, token, done.row.id, op.done, PathOf(found.row), |op.body|, sha(op.body));
    }
  }

  lemma OtherUses(s: State, op: Op, token: string, sha: Content -> string)
    requires Keyed(s.rows) && !op.Put? && (op.Issue? ==> op.token != token)
    ensures Usable(Do(s, op, sha), token) ==> Usable(s, token)
  {
    hide Swept, ByToken, MaxId, MaxRequest, Removed, Upload;
    match op
    case Issue(request, _, now) =>
      SweptByToken(s.rows, token, now);
      AppendedByToken(Swept(s.rows, now), NewRow(Swept(s.rows, now), request, op.token, now), token);
    case Sweep(now) => SweptByToken(s.rows, token, now);
    case Delete(id, _) => RemovedByToken(s.rows, id, token);
  }

  lemma {:induction false} UsesBounded(s: State, ops: seq<Op>, seen: set<string>, token: string, sha: Content -> string)
    requires Keyed(s.rows) && FreshTokens(ops, seen) && forall row :: row in s.rows ==> row.token in seen
    ensures Uses(s, ops, token, sha) <= if Usable(s, token) || token !in seen then 1 else 0
    decreases |ops|
  {
    if ops != [] {
      var op := ops[0];
      DoKeyed(s, op, sha);
      TokensSeen(s, op, seen, sha);
      var seen' := if op.Issue? then seen + {op.token} else seen;
      UsesBounded(Do(s, op, sha), ops[1..], seen', token, sha);
      hide Do, Keyed;
      if op.Put? {
        PutUses(s, op, token, sha);
      } else if op.Issue? && op.token == token {
        assert token !in seen;
      } else {
        OtherUses(s, op, token, sha);
      }
    }
  }

  lemma TokensSeen(s: State, op: Op, seen: set<string>, sha: Content -> string)
    requires forall row :: row in s.rows ==> row.token in seen
    ensures forall row :: row in Do(s, op, sha).rows ==> row.token in seen || (op.Issue? && row.token == op.token)
  {
    hide Swept, ByToken, MaxId, MaxRequest, Removed, Upload;
    var rows' := Do(s, op, sha).rows;
    if op.Put? { PutKeyed(s, op, sha); }
    if op.Delete? { RemovedRows(s.rows, op.id); }
    forall row | row in rows'
      ensures row.token in seen || (op.Issue? && row.token == op.token)
    {
      var i :| 0 <= i < |rows'| && rows'[i] == row;
      assert !op.Delete? && i < |s.rows| ==> s.rows[i] in s.rows && rows'[i].token == s.rows[i].token;
    }
  }

  /** Over every run from an empty table, each token is accepted at most once. */
  lemma TokenIsUsedOnce(ops: seq<Op>, token: string, sha: Content -> string)
    requires FreshTokens(ops, {})
    ensures Uses(Empty, ops, token, sha) <= 1
  {
    UsesBounded(Empty, ops, {}, token, sha);
  }

  lemma OneById(rows: seq<Row>, row: Row, other: Row)
    requires Keyed(rows) && row in rows && other in rows && row.id == other.id
    ensures row == other
  {
    var i :| 0 <= i < |rows| && rows[i] == row;
    var j :| 0 <= j < |rows| && rows[j] == other;
    assert i == j;
  }

  /** A delete takes exactly the row of that id and, unless the removal fails, exactly its file. */
  lemma DeletedIsGone(s: State, id: nat)
    requires Keyed(s.rows)
    ensures Deleted(s, id, false).0.files == s.files && Deleted(s, id, false).0.rows == Deleted(s, id, true).0.rows
    ensures Deleted(s, id, false).1 == Deleted(s, id, true).1
    ensures var (s', ok) := Deleted(s, id, true);
      && (ok <==> exists row :: row in s.rows && row.id == id)
      && (forall row :: row in s'.rows <==> row in s.rows && row.id != id)
      && (forall p :: p in s'.files <==> p in s.files && !(exists row :: row in s.rows && row.id == id && row.filePath == Some(p)))
      && (forall p :: p in s'.files ==> s'.files[p] == s.files[p])
  {
    RemovedRows(s.rows, id);
    if ById(s.rows, id).Some? {
      var row := ById(s.rows, id).value;
      forall other | other in s.rows && other.id == id ensures other == row { OneById(s.rows, row, other); }
    }
    hide Removed, ById, Keyed;
  }

  predicate SeenAll(rows: seq<Row>, seen: set<string>) {
    forall row :: row in rows ==> row.token in seen
  }

  function SeenAfter(op: Op, seen: set<string>): set<string> {
    if op.Issue? then seen + {op.token} else seen
  }

  /** A token that was issued and is no longer in the table does not come back. */
  lemma {:induction false} GoneForGood(s: State, ops: seq<Op>, seen: set<string>, token: string, sha: Content -> string)
    requires Keyed(s.rows) && SeenAll(s.rows, seen) && FreshTokens(ops, seen)
    requires token in seen && forall row :: row in s.rows ==> row.token != token
    ensures forall row :: row in Run(s, ops, sha).rows ==> row.token != token
    decreases |ops|
  {
    if ops != [] {
      var s1 := Do(s, ops[0], sha);
      DoKeyed(s, ops[0], sha);
      TokensSeen(s, ops[0], seen, sha);
      StatusMovesOneWay(s, ops[0], sha);
      hide Do, Keyed;
      forall row' | row' in s1.rows
        ensures row'.token != token
      {
        if row :| row in s.rows && row.id == row'.id { assert Moves(row, row'); }
      }
      GoneForGood(s1, ops[1..], SeenAfter(ops[0], seen), token, sha);
    }
  }

  lemma MovesOn(a: Row, b: Row, c: Row)
    requires Moves(a, b) && Moves(b, c)
    ensures Moves(a, c) && a.token == b.token == c.token
  {
  }

  lemma {:induction false} RunMovesOneWay(s: State, ops: seq<Op>, seen: set<string>, row: Row, row': Row, sha: Content -> string)
    requires Keyed(s.rows) && SeenAll(s.rows, seen) && FreshTokens(ops, seen)
    requires row in s.rows && row' in Run(s, ops, sha).rows && row.token == row'.token
    ensures Moves(row, row')
    decreases |ops|
  {
    if ops == [] {
      SameIdOrToken(s.rows, row, row');
    } else {
      var s1 := Do(s, ops[0], sha);
      DoKeyed(s, ops[0], sha);
      TokensSeen(s, ops[0], seen, sha);
      StatusMovesOneWay(s, ops[0], sha);
      hide Do, Keyed;
      if mid :| mid in s1.rows && mid.token == row.token {
        RunMovesOneWay(s1, ops[1..], SeenAfter(ops[0], seen), mid, row', sha);
        hide Moves;
        MovesOn(row, mid, row');
      } else {
        GoneForGood(s1, ops[1..], SeenAfter(ops[0], seen), row.token, sha);
      }
    }
  }

  lemma {:induction false} MovesBetween(s: State, before: seq<Op>, after: seq<Op>, seen: set<string>, row: Row, row': Row, sha: Content -> string)
    requires Keyed(s.rows) && SeenAll(s.rows, seen) && FreshTokens(before + after, seen)
    requires row in Run(s, before, sha).rows && row' in Run(s, before + after, sha).rows && row.token == row'.token
    ensures Moves(row, row')
    decreases |before|
  {
    hide Do, Keyed, Moves;
    if before == [] {
      assert before + after == after;
      RunMovesOneWay(s, after, seen, row, row', sha);
    } else {
      assert (before + after)[0] == before[0] && (before + after)[1..] == before[1..] + after;
      DoKeyed(s, before[0], sha);
      TokensSeen(s, before[0], seen, sha);
      MovesBetween(Do(s, before[0], sha), before[1..], after, SeenAfter(before[0], seen), row, row', sha);
    }
  }

  /** Over every run with fresh tokens, between any two moments of it: the row of a token is the row
      it was, or one move further. */
  lemma EveryRunMovesOneWay(before: seq<Op>, after: seq<Op>, row: Row, row': Row, sha: Content -> string)
    requires FreshTokens(before + after, {})
    requires row in Run(Empty, before, sha).rows && row' in Run(Empty, before + after, sha).rows && row.token == row'.token
    ensures Moves(row, row')
  {
    hide Run, FreshTokens, Moves;
    MovesBetween(Empty, before, after, {}, row, row', sha);
  }

  // ---- rows and files agree -----------------------------------------------------------------------------------

  predicate DistinctPaths(rows: seq<Row>) {
    forall i, j :: 0 <= i < j < |rows| ==> PathOf(rows[i]) != PathOf(rows[j])
  }

  /** The file of an uploaded row is there, and is what the row says. */
  predicate RowAgrees(row: Row, files: map<Path, Content>, sha: Content -> string) {
    if row.status == Uploaded then
      && row.filePath == Some(PathOf(row)) && PathOf(row) in files
      && row.fileSize == Some(|files[PathOf(row)]|) && row.sha256 == Some(sha(files[PathOf(row)]))
    else row.filePath.None?
  }

  predicate Agrees(s: State, sha: Content -> string) {
    forall row :: row in s.rows ==> RowAgrees(row, s.files, sha)
  }

  /** The path of a row about to be issued is not that of a row in the table. */
  predicate FreePath(rows: seq<Row>, request: Request) {
    forall row :: row in rows ==> PathOf(row) != PathFor(request.cpId, RequestId(rows, request))
  }

  lemma {:induction false} SweptMax(rows: seq<Row>, cpId: string, now: int)
    ensures MaxRequest(Swept(rows, now), cpId) == MaxRequest(rows, cpId)
  {
    if rows != [] {
      SweptMax(rows[1..], cpId, now);
      assert Swept(rows, now)[1..] == Swept(rows[1..], now);
    }
  }

  /** Issuing keeps the paths apart exactly when the new path is free. */
  lemma AppendedPaths(rows: seq<Row>, row: Row)
    requires DistinctPaths(rows)
    ensures DistinctPaths(rows + [row]) <==> forall other :: other in rows ==> PathOf(other) != PathOf(row)
  {
    hide PathOf;
    var rows' := rows + [row];
    if DistinctPaths(rows') {
      forall other | other in rows
        ensures PathOf(other) != PathOf(row)
      {
        var i :| 0 <= i < |rows| && rows[i] == other;
        assert PathOf(rows'[i]) != PathOf(rows'[|rows|]);
      }
    }
  }

  lemma SweptFree(rows: seq<Row>, now: int, path: Path)
    ensures (forall row :: row in Swept(rows, now) ==> PathOf(row) != path) <==> forall row :: row in rows ==> PathOf(row) != path
  {
    hide Swept;
    var swept := Swept(rows, now);
    assert forall i :: 0 <= i < |rows| ==> PathOf(swept[i]) == PathOf(rows[i]);
    hide PathOf;
    forall i | 0 <= i < |rows| ensures rows[i] in rows && swept[i] in swept {}
  }

  lemma IssueKeepsPathsIff(s: State, request: Request, token: string, now: int)
    requires DistinctPaths(s.rows) && Issued(s, request, token, now).1.Some?
    ensures DistinctPaths(Issued(s, request, token, now).0.rows) <==> FreePath(s.rows, request)
  {
    var rows := Swept(s.rows, now);
    SweptMax(s.rows, request.cpId, now);
    var row := NewRow(rows, request, token, now);
    assert Issued(s, request, token, now).0.rows == rows + [row];
    assert PathOf(row) == PathFor(request.cpId, RequestId(s.rows, request));
    hide Swept, ByToken, MaxId, MaxRequest, PathOf, PathFor, RequestId, Issued, DistinctPaths, NewRow;
    SweptPaths(s.rows, now);
    AppendedPaths(rows, row);
    SweptFree(s.rows, now, PathOf(row));
  }

  /** A synthetic id always gets a free path, when sanitising leaves the charger ids alone - also
      an id used before by a row deleted since. */
  lemma SyntheticIdIsFree(rows: seq<Row>, request: Request)
    requires request.requestId.None? && Clean(request.cpId) && forall row :: row in rows ==> Clean(row.cpId)
    ensures FreePath(rows, request)
  {
  }

  lemma SweptAgrees(s: State, now: int, sha: Content -> string)
    requires Agrees(s, sha)
    ensures Agrees(s.(rows := Swept(s.rows, now)), sha)
  {
    forall row | row in Swept(s.rows, now)
      ensures RowAgrees(row, s.files, sha)
    {
      var i :| 0 <= i < |s.rows| && Swept(s.rows, now)[i] == row;
      assert s.rows[i] in s.rows;
    }
  }

  lemma OnlyThere(rows: seq<Row>, row: Row, other: Row)
    requires DistinctPaths(rows) && row in rows && other in rows && PathOf(row) == PathOf(other)
    ensures row == other
  {
    var i :| 0 <= i < |rows| && rows[i] == row;
    var j :| 0 <= j < |rows| && rows[j] == other;
    assert i == j;
  }

  /** Touching the file of a row that is not uploaded disturbs no other row. */
  lemma FileChangeAgrees(rows: seq<Row>, files: map<Path, Content>, files': map<Path, Content>, row: Row, sha: Content -> string)
    requires Agrees(State(rows, files), sha) && DistinctPaths(rows) && row in rows && row.status != Uploaded
    requires forall p :: p != PathOf(row) && p in files ==> p in files' && files'[p] == files[p]
    ensures Agrees(State(rows, files'), sha)
  {
    forall other | other in rows
      ensures RowAgrees(other, files', sha)
    {
      assert RowAgrees(other, files, sha);
      if PathOf(other) == PathOf(row) { OnlyThere(rows, row, other); }
    }
  }

  lemma UpdateAgrees(rows: seq<Row>, files: map<Path, Content>, row: Row, now: int, body: Content, sha: Content -> string)
    requires Agrees(State(rows, files), sha) && DistinctPaths(rows) && Keyed(rows) && row in rows
    ensures Agrees(State(Updated(rows, row.id, now, PathOf(row), |body|, sha(body)), files[PathOf(row) := body]), sha)
  {
    hide Updated, Keyed, DistinctPaths;
    var rows' := Updated(rows, row.id, now, PathOf(row), |body|, sha(body));
    forall other' | other' in rows'
      ensures RowAgrees(other', files[PathOf(row) := body], sha)
    {
      var i :| 0 <= i < |rows'| && rows'[i] == other';
      assert rows[i] in rows;
      UpdatedRowAgrees(rows, files, row, rows[i], now, body, sha);
    }
  }

  lemma UpdatedRowAgrees(rows: seq<Row>, files: map<Path, Content>, row: Row, other: Row, now: int, body: Content, sha: Content -> string)
    requires DistinctPaths(rows) && Keyed(rows) && row in rows && other in rows && RowAgrees(other, files, sha)
    ensures RowAgrees(if other.id == row.id then Received(other, now, PathOf(row), |body|, sha(body)) else other, files[PathOf(row) := body], sha)
  {
    if other.id == row.id {
      OneById(rows, row, other);
    } else if PathOf(other) == PathOf(row) {
      OnlyThere(rows, row, other);
    }
    hide Keyed, DistinctPaths;
  }

  /** The two shapes of an upload that touches a file. */
  lemma PutShape(s: State, op: Op, sha: Content -> string)
    requires op.Put? && WellFormed(op.token)
    requires Eligible(Swept(s.rows, op.found), op.token, op.found).Found?
    ensures
      var rows := Swept(s.rows, op.found);
      var swept := Swept(rows, op.done);
      var row := Eligible(rows, op.token, op.found).row;
      && row in rows && Due(row, op.done) in swept && PathOf(Due(row, op.done)) == PathOf(row) && row.status == Pending
      && (op.write.Failed? ==> Do(s, op, sha).rows == rows)
      && (op.write.Written? && Eligible(swept, op.token, op.done).Found? ==>
            Due(row, op.done) == row == Eligible(swept, op.token, op.done).row
            && Do(s, op, sha) == State(Updated(swept, row.id, op.done, PathOf(row), |op.body|, sha(op.body)), s.files[PathOf(row) := op.body]))
      && (op.write.Written? && Eligible(swept, op.token, op.done).Refused? ==>
            Do(s, op, sha).rows == swept)
      && (forall p :: p != PathOf(row) && p in s.files ==> p in Do(s, op, sha).files && Do(s, op, sha).files[p] == s.files[p])
  {
    hide Swept, Updated, ByToken, Cleaned, WellFormed, Sanitise;
    var rows := Swept(s.rows, op.found);
    SweptByToken(rows, op.token, op.done);
    var row := Eligible(rows, op.token, op.found).row;
    var i :| 0 <= i < |rows| && rows[i] == row;
    assert Swept(rows, op.done)[i] == Due(row, op.done);
  }

  lemma PutAgreesFound(s: State, op: Op, sha: Content -> string)
    requires Keyed(s.rows) && DistinctPaths(s.rows) && Agrees(s, sha) && op.Put? && WellFormed(op.token)
    requires Eligible(Swept(s.rows, op.found), op.token, op.found).Found?
    ensures Agrees(Do(s, op, sha), sha)
  {
    hide *;
    var rows := Swept(s.rows, op.found);
    var swept := Swept(rows, op.done);
    var found := Eligible(rows, op.token, op.found).row;
    var s' := Do(s, op, sha);
    PutShape(s, op, sha);
    SweptAgrees(s, op.found, sha);
    SweptAgrees(State(rows, s.files), op.done, sha);
    SweptKeyed(s.rows, op.found);
    SweptKeyed(rows, op.done);
    SweptPaths(s.rows, op.found);
    SweptPaths(rows, op.done);
    if op.write.Failed? {
      FileChangeAgrees(rows, s.files, s'.files, found, sha);
      assert s' == State(rows, s'.files);
    } else if Eligible(swept, op.token, op.done).Found? {
      UpdateAgrees(swept, s.files, found, op.done, op.body, sha);
    } else {
      DueStays(found, op.done);
      FileChangeAgrees(swept, s.files, s'.files, Due(found, op.done), sha);
      assert s' == State(swept, s'.files);
    }
  }

  lemma DueStays(row: Row, now: int)
    ensures row.status == Pending ==> Due(row, now).status != Uploaded
  {
  }

  lemma PutAgrees(s: State, op: Op, sha: Content -> string)
    requires Keyed(s.rows) && DistinctPaths(s.rows) && Agrees(s, sha) && op.Put?
    ensures Agrees(Do(s, op, sha), sha)
  {
    hide Swept, Agrees, Keyed, DistinctPaths, WellFormed, Consumed, Eligible;
    if WellFormed(op.token) && Eligible(Swept(s.rows, op.found), op.token, op.found).Found? {
      PutAgreesFound(s, op, sha);
    } else {
      SweptAgrees(s, op.found, sha);
    }
  }

  lemma SweptPaths(rows: seq<Row>, now: int)
    requires DistinctPaths(rows)
    ensures DistinctPaths(Swept(rows, now))
  {
    hide Swept;
    assert forall i :: 0 <= i < |rows| ==> PathOf(Swept(rows, now)[i]) == PathOf(rows[i]);
    hide PathOf;
  }

  lemma DeleteAgrees(s: State, op: Op, sha: Content -> string)
    requires Keyed(s.rows) && DistinctPaths(s.rows) && Agrees(s, sha) && op.Delete?
    ensures Agrees(Do(s, op, sha), sha)
  {
    RemovedRows(s.rows, op.id);
    var s' := Do(s, op, sha);
    var gone := ById(s.rows, op.id);
    if gone.Some? {
      assert RowAgrees(gone.value, s.files, sha);
      forall row | row in s'.rows
        ensures RowAgrees(row, s'.files, sha)
      {
        assert row in s.rows && RowAgrees(row, s.files, sha);
        if PathOf(row) == PathOf(gone.value) { OnlyThere(s.rows, row, gone.value); }
      }
    }
  }

  lemma DoPaths(s: State, op: Op, sha: Content -> string)
    requires DistinctPaths(s.rows) && (op.Issue? ==> FreePath(s.rows, op.request))
    ensures DistinctPaths(Do(s, op, sha).rows)
  {
    hide Swept, ByToken, MaxId, MaxRequest, Removed, Upload, DistinctPaths, FreePath, NewRow;
    match op
    case Issue(request, token, now) =>
      SweptPaths(s.rows, now);
      if Issued(s, request, token, now).1.Some? { IssueKeepsPathsIff(s, request, token, now); }
    case Sweep(now) => SweptPaths(s.rows, now);
    case Delete(id, _) => RemovedPaths(s.rows, id);
    case Put(_, _, _, _, _) => PutPaths(s, op, sha);
  }

  lemma PutPaths(s: State, op: Op, sha: Content -> string)
    requires DistinctPaths(s.rows) && op.Put?
    ensures DistinctPaths(Do(s, op, sha).rows)
  {
    hide Do, Sanitise;
    PutKeyed(s, op, sha);
    assert forall i :: 0 <= i < |s.rows| ==> PathOf(Do(s, op, sha).rows[i]) == PathOf(s.rows[i]);
    hide PathOf;
  }

  lemma DoAgrees(s: State, op: Op, sha: Content -> string)
    requires Keyed(s.rows) && DistinctPaths(s.rows) && Agrees(s, sha)
    ensures Agrees(Do(s, op, sha), sha)
  {
    match op
    case Issue(_, _, now) => SweptAgrees(s, now, sha);
    case Sweep(now) => SweptAgrees(s, now, sha);
    case Delete(_, _) => DeleteAgrees(s, op, sha);
    case Put(_, _, _, _, _) => PutAgrees(s, op, sha);
  }

  /** Every issue of the run gets a free path. */
  predicate FreeRun(s: State, ops: seq<Op>, sha: Content -> string)
    decreases |ops|
  {
    ops != [] ==> (ops[0].Issue? ==> FreePath(s.rows, ops[0].request)) && FreeRun(Do(s, ops[0], sha), ops[1..], sha)
  }

  lemma {:induction false} RunAgrees(s: State, ops: seq<Op>, sha: Content -> string)
    requires Keyed(s.rows) && DistinctPaths(s.rows) && Agrees(s, sha) && FreeRun(s, ops, sha)
    ensures DistinctPaths(Run(s, ops, sha).rows) && Agrees(Run(s, ops, sha), sha)
    decreases |ops|
  {
    if ops != [] {
      hide Do, Agrees, DistinctPaths, Keyed, FreePath;
      DoKeyed(s, ops[0], sha);
      DoPaths(s, ops[0], sha);
      DoAgrees(s, ops[0], sha);
      RunAgrees(Do(s, ops[0], sha), ops[1..], sha);
    }
  }

  predicate SyntheticOp(op: Op) {
    op.Issue? ==> op.request.requestId.None? && Clean(op.request.cpId)
  }

  predicate AllClean(rows: seq<Row>) {
    forall row :: row in rows ==> Clean(row.cpId)
  }

  lemma DoClean(s: State, op: Op, sha: Content -> string)
    requires AllClean(s.rows) && SyntheticOp(op)
    ensures AllClean(Do(s, op, sha).rows)
  {
    hide Swept, ByToken, MaxId, MaxRequest, Removed, Upload, Clean;
    var rows' := Do(s, op, sha).rows;
    if op.Put? { PutKeyed(s, op, sha); }
    if op.Delete? { RemovedRows(s.rows, op.id); }
    forall row | row in rows'
      ensures Clean(row.cpId)
    {
      var i :| 0 <= i < |rows'| && rows'[i] == row;
      assert !op.Delete? && i < |s.rows| ==> s.rows[i] in s.rows && rows'[i].cpId == s.rows[i].cpId;
    }
  }

  lemma {:induction false} SyntheticRunIsFree(s: State, ops: seq<Op>, sha: Content -> string)
    requires Keyed(s.rows) && AllClean(s.rows) && forall op :: op in ops ==> SyntheticOp(op)
    ensures FreeRun(s, ops, sha)
    decreases |ops|
  {
    if ops != [] {
      assert ops[0] in ops && forall op :: op in ops[1..] ==> op in ops;
      if ops[0].Issue? { SyntheticIdIsFree(s.rows, ops[0].request); }
      hide Do, FreePath, Keyed, AllClean, SyntheticOp;
      DoKeyed(s, ops[0], sha);
      DoClean(s, ops[0], sha);
      SyntheticRunIsFree(Do(s, ops[0], sha), ops[1..], sha);
    }
  }

  /** Over every run with synthetic ids - whatever uploads fail, are refused or are deleted - no two
      rows share a path, and the file of every uploaded row has the recorded size and digest. */
  lemma UploadsAgreeWithFiles(ops: seq<Op>, sha: Content -> string)
    requires forall op :: op in ops ==> SyntheticOp(op)
    ensures DistinctPaths(Run(Empty, ops, sha).rows) && Agrees(Run(Empty, ops, sha), sha)
  {
    SyntheticRunIsFree(Empty, ops, sha);
    RunAgrees(Empty, ops, sha);
  }

  /** What goes wrong without: two pending rows with one path, and each upload overwrites the
      other's file, so that the first row then tells the second one's digest wrong. */
  lemma SharedPathCorrupts(s: State, a: Row, b: Row, x: Content, y: Content, now: int, sha: Content -> string)
    requires Keyed(s.rows) && a in s.rows && b in s.rows && a != b && PathOf(a) == PathOf(b)
    requires a.status == Pending == b.status && a.receivedAt.None? && b.receivedAt.None?
    requires now <= a.expiresAt && now <= b.expiresAt && WellFormed(a.token) && WellFormed(b.token)
    requires sha(x) != sha(y)
    ensures var s' := Run(s, [Put(a.token, x, now, now, Written(true)), Put(b.token, y, now, now, Written(true))], sha); !Agrees(s', sha)
  {
    hide *;
    var (first, second) := (Put(a.token, x, now, now, Written(true)), Put(b.token, y, now, now, Written(true)));
    var (s1, s2) := (Do(s, first, sha), Do(Do(s, first, sha), second, sha));
    RunTwo(s, first, second, sha);
    var a1 := Received(a, now, PathOf(a), |x|, sha(x));
    Accepts(s, a, x, now, sha);
    DoKeyed(s, first, sha);
    Accepts(s1, b, y, now, sha);
    TokensDiffer(s.rows, a, b, now, PathOf(a), |x|, sha(x));
    assert a1 in s2.rows;
    Overwritten(s2, a, now, x, y, sha);
  }

  lemma RunTwo(s: State, first: Op, second: Op, sha: Content -> string)
    ensures Run(s, [first, second], sha) == Do(Do(s, first, sha), second, sha)
  {
    hide Do;
    assert [first, second][1..] == [second] && [second][1..] == [];
    assert Run(Do(s, first, sha), [second], sha) == Run(Do(Do(s, first, sha), second, sha), [], sha);
  }

  lemma TwoIssued(a: Request, b: Request, first: string, second: string, now: int, sha: Content -> string)
    requires first != second
    ensures var rowA := NewRow([], a, first, now);
      Run(Empty, [Issue(a, first, now), Issue(b, second, now)], sha) == State([rowA, NewRow([rowA], b, second, now)], map[])
  {
    var rowA := NewRow([], a, first, now);
    RunTwo(Empty, Issue(a, first, now), Issue(b, second, now), sha);
    assert Issued(Empty, a, first, now).0 == State([rowA], map[]) by { assert Swept([], now) == [] && [] + [rowA] == [rowA]; }
    hide NewRow, Run;
    assert rowA.token == first && rowA.status == Pending && now <= rowA.expiresAt;
    assert Swept([rowA], now) == [rowA];
    assert [rowA] + [NewRow([rowA], b, second, now)] == [rowA, NewRow([rowA], b, second, now)];
  }

  lemma RowsShare(a: Request, b: Request, first: string, second: string, now: int)
    requires a.requestId.Some? && a.requestId == b.requestId && Sanitise(a.cpId) == Sanitise(b.cpId) && first != second
    ensures var rowA := NewRow([], a, first, now);
      var rowB := NewRow([rowA], b, second, now);
      && Keyed([rowA, rowB]) && rowA != rowB && PathOf(rowA) == PathOf(rowB) && rowA.token == first && rowB.token == second
      && rowA.status == Pending == rowB.status && rowA.receivedAt.None? && rowB.receivedAt.None?
      && now <= rowA.expiresAt && now <= rowB.expiresAt
  {
    hide Sanitise;
  }

  /** From nothing: two tokens issued for one explicit request id, for chargers that sanitising maps to one
      name, and both used in time. The digest on the first row is then not its file's. */
  lemma SharedPathFromEmpty(a: Request, b: Request, first: string, second: string, x: Content, y: Content, now: int, sha: Content -> string)
    requires a.requestId.Some? && a.requestId == b.requestId && Sanitise(a.cpId) == Sanitise(b.cpId)
    requires first != second && WellFormed(first) && WellFormed(second) && sha(x) != sha(y)
    ensures !Agrees(Run(Empty, [Issue(a, first, now), Issue(b, second, now),
                                Put(first, x, now, now, Written(true)), Put(second, y, now, now, Written(true))], sha), sha)
  {
    var issues := [Issue(a, first, now), Issue(b, second, now)];
    var puts := [Put(first, x, now, now, Written(true)), Put(second, y, now, now, Written(true))];
    var rowA := NewRow([], a, first, now);
    var rowB := NewRow([rowA], b, second, now);
    hide *;
    RowsShare(a, b, first, second, now);
    TwoIssued(a, b, first, second, now, sha);
    RunConcat(Empty, issues, puts, sha);
    SharedPathCorrupts(Run(Empty, issues, sha), rowA, rowB, x, y, now, sha);
    assert issues + puts == [issues[0], issues[1], puts[0], puts[1]];
  }

  lemma {:induction false} RunConcat(s: State, before: seq<Op>, after: seq<Op>, sha: Content -> string)
    ensures Run(s, before + after, sha) == Run(Run(s, before, sha), after, sha)
    decreases |before|
  {
    hide Do;
    if before == [] {
      assert [] + after == after;
    } else {
      assert (before + after)[1..] == before[1..] + after;
      RunConcat(Do(s, before[0], sha), before[1..], after, sha);
    }
  }

  lemma Overwritten(s: State, a: Row, now: int, x: Content, y: Content, sha: Content -> string)
    requires Received(a, now, PathOf(a), |x|, sha(x)) in s.rows && sha(x) != sha(y)
    requires PathOf(a) in s.files && s.files[PathOf(a)] == y
    ensures !Agrees(s, sha)
  {
    var a1 := Received(a, now, PathOf(a), |x|, sha(x));
    assert PathOf(a1) == PathOf(a) && !RowAgrees(a1, s.files, sha);
  }

  lemma TokensDiffer(rows: seq<Row>, a: Row, b: Row, now: int, path: Path, size: nat, digest: string)
    requires Keyed(rows) && a in rows && b in rows && a != b
    ensures var a1 := Received(a, now, path, size, digest); a1 != b && a1.status == Uploaded
  {
    var i :| 0 <= i < |rows| && rows[i] == a;
    var j :| 0 <= j < |rows| && rows[j] == b;
    assert i < j || j < i;
  }

  lemma TokenFinds(rows: seq<Row>, row: Row)
    requires Keyed(rows) && row in rows
    ensures ByToken(rows, row.token) == Some(row)
  {
    var found := ByToken(rows, row.token).value;
    var i :| 0 <= i < |rows| && rows[i] == row;
    var j :| 0 <= j < |rows| && rows[j] == found;
    assert i == j;
  }

  lemma Accepts(s: State, row: Row, body: Content, now: int, sha: Content -> string)
    requires Keyed(s.rows) && row in s.rows && row.status == Pending && row.receivedAt.None? && now <= row.expiresAt && WellFormed(row.token)
    ensures var s' := Do(s, Put(row.token, body, now, now, Written(true)), sha);
      && s'.files == s.files[PathOf(row) := body]
      && Received(row, now, PathOf(row), |body|, sha(body)) in s'.rows
      && forall other :: other in s.rows && other != row && (other.status != Pending || now <= other.expiresAt) ==> other in s'.rows
  {
    hide Swept, Updated, ByToken, WellFormed, PathOf, Keyed;
    var s' := Do(s, Put(row.token, body, now, now, Written(true)), sha);
    TokenFinds(s.rows, row);
    SweptByToken(s.rows, row.token, now);
    SweptByToken(Swept(s.rows, now), row.token, now);
    var swept := Swept(Swept(s.rows, now), now);
    assert s'.files == s.files[PathOf(row) := body] && s'.rows == Updated(swept, row.id, now, PathOf(row), |body|, sha(body));
    hide Do;
    AcceptsRows(s.rows, row, now, PathOf(row), |body|, sha(body));
  }

  lemma AcceptsRows(rows: seq<Row>, row: Row, now: int, path: Path, size: nat, digest: string)
    requires Keyed(rows) && row in rows && now <= row.expiresAt
    ensures var rows' := Updated(Swept(Swept(rows, now), now), row.id, now, path, size, digest);
      && Received(row, now, path, size, digest) in rows'
      && forall other :: other in rows && other != row && (other.status != Pending || now <= other.expiresAt) ==> other in rows'
  {
    hide Swept, Updated;
    var rows' := Updated(Swept(Swept(rows, now), now), row.id, now, path, size, digest);
    var i :| 0 <= i < |rows| && rows[i] == row;
    assert rows'[i] == Received(row, now, path, size, digest);
    forall other | other in rows && other != row && (other.status != Pending || now <= other.expiresAt)
      ensures other in rows'
    {
      var j :| 0 <= j < |rows| && rows[j] == other;
      assert rows'[j] == other;
    }
  }
}
