/** event-log/retention.ts: deleting month files older than the retention window. */
module Retention {
  import opened Options
  import opened TextOrder
  import opened MonthKeys
  import opened Ndjson
  import opened EventFiles
  import opened Sequences
  import EventSearch

  predicate HasMonthShape(key: string) {
    |key| == 7 && IsDigits(key[..4]) && IsDigits(key[5..])
  }

  /** paths.ts: Date.UTC(year, month - 1, 1), counted in months. Date.UTC reads the years
      0 to 99 as 1900 to 1999, and accepts a month outside 1 to 12. */
  function MonthStart(key: string): int
    requires HasMonthShape(key)
  {
    var y := Number(key[..4]);
    12 * (if y <= 99 then 1900 + y else y) + Number(key[5..]) - 1
  }

  /** Only well-named month files before the cutoff are deleted. */
  predicate Stays(name: string, cutoff: int) {
    match MonthFromFilename(name)
    case None => true
    case Some(m) => ShapeOf(name); MonthStart(m) >= cutoff
  }

  lemma ShapeOf(name: string)
    ensures MonthFromFilename(name).Some? ==> HasMonthShape(MonthFromFilename(name).value)
  {
    if MonthFromFilename(name).Some? {
      assert name[..7][..4] == name[..4] && name[..7][5..] == name[5..7];
    }
  }

  function Pruned(dir: Directory, cutoff: int, stuck: set<string>): Directory {
    map name | name in dir && (Stays(name, cutoff) || name in stuck) :: dir[name]
  }

  function Cutoff(now: string, retention: nat): string
    requires IsMonthKey(now) && retention <= Index(now)
    ensures IsMonthKey(Cutoff(now, retention))
  {
    OffsetIsKey(now, 0 - retention as int);
    KeyOfIndex(now);
    KeyShape(Index(now) - retention);
    MonthKeyOffset(now, 0 - retention as int)
  }

  /** An entry of the result's `removed`, and of its `errors` (a directory has no file name). */
  datatype Removal = Removal(cpId: string, month: string, bytes: nat)
  datatype Failure = Failure(cpId: string, file: Option<string>)

  /** What one file of a directory adds to the two lists. */
  function RemovalOf(cp: string, dir: Directory, cutoff: int, stuck: set<string>): string -> seq<Removal> {
    (name: string) =>
      if name !in dir || Stays(name, cutoff) || name in stuck || MonthFromFilename(name).None? then []
      else [Removal(cp, MonthFromFilename(name).value, |dir[name]|)]
  }

  function FailureOf(cp: string, cutoff: int, stuck: set<string>): string -> seq<Failure> {
    (name: string) => if !Stays(name, cutoff) && name in stuck then [Failure(cp, Some(name))] else []
  }

  predicate Once(entries: seq<string>) {
    forall i, j :: 0 <= i < j < |entries| ==> entries[i] != entries[j]
  }

  predicate GoneBy(name: string, seen: seq<string>, cutoff: int, stuck: set<string>) {
    name in seen && !Stays(name, cutoff) && name !in stuck
  }

  /** The directory when the files in `seen` have had their turn. */
  function LeftAfter(dir: Directory, seen: seq<string>, cutoff: int, stuck: set<string>): Directory {
    map name | name in dir && !GoneBy(name, seen, cutoff, stuck) :: dir[name]
  }

  lemma LeftStep(dir: Directory, seen: seq<string>, name: string, cutoff: int, stuck: set<string>)
    ensures LeftAfter(dir, seen + [name], cutoff, stuck)
         == if Stays(name, cutoff) || name in stuck then LeftAfter(dir, seen, cutoff, stuck) else LeftAfter(dir, seen, cutoff, stuck) - {name}
  {
    hide Stays;
    assert forall other :: other in seen + [name] <==> other in seen || other == name;
  }

  lemma NotStays(name: string, cutoff: int)
    ensures !Stays(name, cutoff) ==> MonthFromFilename(name).Some?
  {
  }

  /** One directory's turn: `entries` is what readdir lists, `stuck` the files whose unlink fails. */
  method PruneDirectory(cp: string, dir: Directory, entries: seq<string>, cutoff: int, stuck: set<string>)
    returns (left: Directory, removed: seq<Removal>, errors: seq<Failure>)
    requires forall name :: name in entries <==> name in dir
    ensures left == Pruned(dir, cutoff, stuck)
    ensures removed == FlatMap(entries, RemovalOf(cp, dir, cutoff, stuck))
    ensures errors == FlatMap(entries, FailureOf(cp, cutoff, stuck))
  {
    hide Stays, MonthFromFilename, FlatMap, LeftAfter;
    left, removed, errors := dir, [], [];
    DirectoryStart(cp, dir, cutoff, stuck);
    for i := 0 to |entries|
      invariant left == LeftAfter(dir, entries[..i], cutoff, stuck)
      invariant removed == FlatMap(entries[..i], RemovalOf(cp, dir, cutoff, stuck))
      invariant errors == FlatMap(entries[..i], FailureOf(cp, cutoff, stuck))
    {
      var name := entries[i];
      assert entries[..i + 1] == entries[..i] + [name];
      LeftStep(dir, entries[..i], name, cutoff, stuck);
      FlatMapSnoc(entries[..i], name, RemovalOf(cp, dir, cutoff, stuck));
      FlatMapSnoc(entries[..i], name, FailureOf(cp, cutoff, stuck));
      NotStays(name, cutoff);
      if Stays(name, cutoff) { continue; }
      if name in stuck {
        errors := errors + [Failure(cp, Some(name))];
        continue;
      }
      left := left - {name};
      removed := removed + [Removal(cp, MonthFromFilename(name).value, |dir[name]|)];
    }
    assert entries[..|entries|] == entries;
    DirectoryEnd(dir, entries, cutoff, stuck);
  }

  lemma DirectoryStart(cp: string, dir: Directory, cutoff: int, stuck: set<string>)
    ensures LeftAfter(dir, [], cutoff, stuck) == dir
    ensures FlatMap([], RemovalOf(cp, dir, cutoff, stuck)) == [] && FlatMap([], FailureOf(cp, cutoff, stuck)) == []
  {
  }

  lemma DirectoryEnd(dir: Directory, entries: seq<string>, cutoff: int, stuck: set<string>)
    requires forall name :: name in entries <==> name in dir
    ensures LeftAfter(dir, entries, cutoff, stuck) == Pruned(dir, cutoff, stuck)
  {
    hide Stays;
  }

  /** `r` tells of the file `name`, which pruning takes from the directory. */
  predicate Lost(cp: string, dir: Directory, cutoff: int, stuck: set<string>, name: string, r: Removal) {
    && name in dir && name !in Pruned(dir, cutoff, stuck)
    && MonthFromFilename(name).Some? && r == Removal(cp, MonthFromFilename(name).value, |dir[name]|)
  }

  lemma LostIsRemoval(cp: string, dir: Directory, cutoff: int, stuck: set<string>, name: string, r: Removal)
    ensures r in RemovalOf(cp, dir, cutoff, stuck)(name) <==> Lost(cp, dir, cutoff, stuck, name, r)
  {
    hide MonthFromFilename, Stays;
    NotStays(name, cutoff);
  }

  lemma OneNamePerMonth(a: string, b: string)
    requires MonthFromFilename(a).Some? && MonthFromFilename(a) == MonthFromFilename(b)
    ensures a == b
  {
    assert a == a[..7] + a[7..] && b == b[..7] + b[7..];
  }

  predicate Distinct(removed: seq<Removal>) {
    forall i, j :: 0 <= i < j < |removed| ==> removed[i] != removed[j]
  }

  lemma {:induction false} RemovedOnce(cp: string, dir: Directory, entries: seq<string>, cutoff: int, stuck: set<string>)
    requires Once(entries)
    ensures Distinct(FlatMap(entries, RemovalOf(cp, dir, cutoff, stuck)))
  {
    if entries != [] {
      var (name, rest, f) := (entries[0], entries[1..], RemovalOf(cp, dir, cutoff, stuck));
      RemovedOnce(cp, dir, rest, cutoff, stuck);
      assert name !in rest && |f(name)| <= 1;
      hide MonthFromFilename, Stays, Pruned, RemovalOf, Once;
      forall r | r in f(name) && r in FlatMap(rest, f)
        ensures false
      {
        FlatMapMembers(rest, f, r);
        var other :| other in rest && r in f(other);
        LostIsRemoval(cp, dir, cutoff, stuck, name, r);
        LostIsRemoval(cp, dir, cutoff, stuck, other, r);
        OneNamePerMonth(name, other);
      }
      DistinctCons(f(name), FlatMap(rest, f));
    }
  }

  lemma DistinctCons(first: seq<Removal>, rest: seq<Removal>)
    requires |first| <= 1 && Distinct(rest) && forall r :: r in first ==> r !in rest
    ensures Distinct(first + rest)
  {
    if first != [] { assert first[0] in first; }
  }

  /** `e` tells of a file that should have gone and did not. */
  predicate Failed(cp: string, dir: Directory, cutoff: int, stuck: set<string>, e: Failure) {
    e.cpId == cp && e.file.Some? && e.file.value in dir && e.file.value in stuck && !Stays(e.file.value, cutoff)
  }

  lemma FailedIsFailure(cp: string, dir: Directory, cutoff: int, stuck: set<string>, name: string, e: Failure)
    requires name in dir
    ensures e in FailureOf(cp, cutoff, stuck)(name) <==> Failed(cp, dir, cutoff, stuck, e) && e.file == Some(name)
  {
    hide Stays;
  }

  /** The list of removals is what the directory lost: each deleted file once, with its month and its
      size; and the list of errors is what should have gone and did not. */
  lemma RemovalsAreTheLoss(cp: string, dir: Directory, entries: seq<string>, cutoff: int, stuck: set<string>)
    requires Once(entries) && forall name :: name in entries <==> name in dir
    ensures Distinct(FlatMap(entries, RemovalOf(cp, dir, cutoff, stuck)))
    ensures forall r :: r in FlatMap(entries, RemovalOf(cp, dir, cutoff, stuck)) <==> exists name :: Lost(cp, dir, cutoff, stuck, name, r)
    ensures forall e :: e in FlatMap(entries, FailureOf(cp, cutoff, stuck)) <==> Failed(cp, dir, cutoff, stuck, e)
  {
    RemovedOnce(cp, dir, entries, cutoff, stuck);
    hide FlatMap, MonthFromFilename, Stays, Pruned, Once, Distinct, RemovalOf, FailureOf;
    forall r: Removal
      ensures r in FlatMap(entries, RemovalOf(cp, dir, cutoff, stuck)) <==> exists name :: Lost(cp, dir, cutoff, stuck, name, r)
    {
      FlatMapMembers(entries, RemovalOf(cp, dir, cutoff, stuck), r);
      forall name
        ensures r in RemovalOf(cp, dir, cutoff, stuck)(name) <==> Lost(cp, dir, cutoff, stuck, name, r)
      {
        LostIsRemoval(cp, dir, cutoff, stuck, name, r);
      }
    }
    forall e: Failure
      ensures e in FlatMap(entries, FailureOf(cp, cutoff, stuck)) <==> Failed(cp, dir, cutoff, stuck, e)
    {
      FlatMapMembers(entries, FailureOf(cp, cutoff, stuck), e);
      forall name | name in entries
        ensures e in FailureOf(cp, cutoff, stuck)(name) <==> Failed(cp, dir, cutoff, stuck, e) && e.file == Some(name)
      {
        FailedIsFailure(cp, dir, cutoff, stuck, name, e);
      }
    }
  }

  // ---- all chargers ---------------------------------------------------------------------------------

  /** The log's root: its directories, how each lists its files, which files cannot be deleted, and which
      directories cannot be listed. */
  datatype Root = Root(dirs: map<string, Directory>, entries: map<string, seq<string>>, stuck: map<string, set<string>>,
                       unreadable: set<string>)

  ghost predicate Listed(root: Root, cps: seq<string>) {
    && Once(cps) && (forall cp :: cp in cps <==> cp in root.dirs)
    && forall cp :: cp in root.dirs ==>
         cp in root.entries && Once(root.entries[cp]) && forall name :: name in root.entries[cp] <==> name in root.dirs[cp]
  }

  function StuckIn(root: Root, cp: string): set<string> {
    if cp in root.stuck then root.stuck[cp] else {}
  }

  /** What one directory leaves and adds to the lists. */
  function DirLeft(root: Root, cp: string, cutoff: int): Directory
    requires cp in root.dirs
  {
    if cp in root.unreadable then root.dirs[cp] else Pruned(root.dirs[cp], cutoff, StuckIn(root, cp))
  }

  function DirRemovals(root: Root, cutoff: int): string -> seq<Removal> {
    (cp: string) =>
      if cp in root.unreadable || cp !in root.dirs || cp !in root.entries then []
      else FlatMap(root.entries[cp], RemovalOf(cp, root.dirs[cp], cutoff, StuckIn(root, cp)))
  }

  function DirFailures(root: Root, cutoff: int): string -> seq<Failure> {
    (cp: string) =>
      if cp in root.unreadable then [Failure(cp, None)]
      else if cp !in root.entries then []
      else FlatMap(root.entries[cp], FailureOf(cp, cutoff, StuckIn(root, cp)))
  }

  /** The root when the directories in `seen` have had their turn. */
  ghost function RootAfter(root: Root, seen: seq<string>, cutoff: int): map<string, Directory> {
    map cp | cp in root.dirs :: if cp in seen then DirLeft(root, cp, cutoff) else root.dirs[cp]
  }

  lemma RootStep(root: Root, seen: seq<string>, cp: string, cutoff: int)
    requires cp in root.dirs && cp !in seen
    ensures RootAfter(root, seen + [cp], cutoff) == RootAfter(root, seen, cutoff)[cp := DirLeft(root, cp, cutoff)]
    ensures RootAfter(root, seen, cutoff)[cp := root.dirs[cp]] == RootAfter(root, seen, cutoff)
  {
    hide DirLeft;
  }

  method PruneDirectories(root: Root, cps: seq<string>, cutoff: int)
    returns (left: map<string, Directory>, removed: seq<Removal>, errors: seq<Failure>)
    requires Listed(root, cps)
    ensures left == RootAfter(root, cps, cutoff)
    ensures removed == FlatMap(cps, DirRemovals(root, cutoff))
    ensures errors == FlatMap(cps, DirFailures(root, cutoff))
  {
    hide Pruned, RemovalOf, FailureOf, FlatMap, RootAfter;
    left, removed, errors := root.dirs, [], [];
    RootStart(root, cutoff);
    for i := 0 to |cps|
      invariant left == RootAfter(root, cps[..i], cutoff)
      invariant removed == FlatMap(cps[..i], DirRemovals(root, cutoff))
      invariant errors == FlatMap(cps[..i], DirFailures(root, cutoff))
    {
      var cp := cps[i];
      assert cps[..i + 1] == cps[..i] + [cp];
      RootStep(root, cps[..i], cp, cutoff);
      FlatMapSnoc(cps[..i], cp, DirRemovals(root, cutoff));
      FlatMapSnoc(cps[..i], cp, DirFailures(root, cutoff));
      if cp in root.unreadable {
        errors := errors + [Failure(cp, None)];
        continue;
      }
      var kept, gone, failed := PruneDirectory(cp, root.dirs[cp], root.entries[cp], cutoff, StuckIn(root, cp));
      left, removed, errors := left[cp := kept], removed + gone, errors + failed;
    }
    assert cps[..|cps|] == cps;
  }

  // ---- what pruning deletes ---------------------------------------------------------------------------

  /** A month as Date.UTC dates it: the first hundred years are the years 1900 to 1999. */
  function Dated(t: nat): nat {
    if t < 1200 then t + 22800 else t
  }

  lemma MonthIsDated(m: string)
    requires IsMonthKey(m)
    ensures HasMonthShape(m) && MonthStart(m) == Dated(Index(m))
  {
    hide Number;
  }

  lemma CutoffIsBack(now: string, retention: nat)
    requires IsMonthKey(now) && retention <= Index(now)
    ensures HasMonthShape(Cutoff(now, retention)) && MonthStart(Cutoff(now, retention)) == Dated(Index(now) - retention)
  {
    hide IsMonthKey, Index, MonthStart, MonthKeyOffset;
    OffsetIsKey(now, 0 - retention as int);
    KeyOfIndex(now);
    KeyShape(Index(now) - retention);
    MonthIsDated(Cutoff(now, retention));
  }

  lemma StaysByMonth(m: string, cutoff: int)
    requires IsMonthKey(m)
    ensures Stays(FileName(m), cutoff) <==> Dated(Index(m)) >= cutoff
  {
    hide IsMonthKey, MonthStart, Index, Dated, HasMonthShape;
    MonthHasName(m);
    MonthIsDated(m);
  }

  lemma MonthHasName(m: string)
    requires IsMonthKey(m)
    ensures MonthFromFilename(FileName(m)) == Some(m)
  {
    hide Number;
    var name := FileName(m);
    assert name[..7] == m && name[7..] == ".ndjson" && name[..4] == m[..4] && name[5..7] == m[5..];
  }

  /** A directory that can be listed. */
  predicate Readable(root: Root, cp: string) {
    cp in root.dirs && cp !in root.unreadable
  }

  predicate KeepsMonth(root: Root, before: nat, cp: string, m: string)
    requires cp in root.dirs && IsMonthKey(m)
  {
    && FileName(m) in root.dirs[cp]
    && (!Readable(root, cp) || FileName(m) in StuckIn(root, cp) || Dated(Index(m)) >= Dated(before))
  }

  /** The files that are left when all months before `before` are deleted: of a readable directory, a month file
      that can be deleted stays exactly when its month is not dated before `before`; every other file
      stays; and what stays has its content. */
  ghost predicate KeepsFrom(root: Root, before: nat, left: map<string, Directory>) {
    && left.Keys == root.dirs.Keys
    && (forall cp, m :: cp in root.dirs && IsMonthKey(m) ==>
          (FileName(m) in left[cp] <==> KeepsMonth(root, before, cp, m)))
    && (forall cp, name :: cp in root.dirs && name in root.dirs[cp] && MonthFromFilename(name) == None ==> name in left[cp])
    && (forall cp, name :: cp in root.dirs && name in left[cp] ==> name in root.dirs[cp] && left[cp][name] == root.dirs[cp][name])
  }

  /** The removals are the files that went, each once. */
  ghost predicate TellsTheLoss(root: Root, left: map<string, Directory>, removed: seq<Removal>)
    requires left.Keys == root.dirs.Keys
  {
    && Distinct(removed)
    && forall r :: r in removed <==>
      && r.cpId in root.dirs && FileName(r.month) in root.dirs[r.cpId] && FileName(r.month) !in left[r.cpId]
      && r.bytes == |root.dirs[r.cpId][FileName(r.month)]|
  }

  /** The errors are the directories that could not be listed, and the month files that should have gone. */
  ghost predicate TellsTheFailures(root: Root, before: nat, errors: seq<Failure>) {
    && (forall cp :: Failure(cp, None) in errors <==> cp in root.dirs && cp in root.unreadable)
    && (forall cp, m :: IsMonthKey(m) ==> (Failure(cp, Some(FileName(m))) in errors <==>
          && Readable(root, cp) && FileName(m) in root.dirs[cp] && FileName(m) in StuckIn(root, cp)
          && Dated(Index(m)) < Dated(before)))
    && (forall cp, name :: Failure(cp, Some(name)) in errors ==> Readable(root, cp) && name in StuckIn(root, cp))
  }

  lemma LeftKeeps(root: Root, cps: seq<string>, cutoff: int, before: nat)
    requires Listed(root, cps) && cutoff == Dated(before)
    ensures KeepsFrom(root, before, RootAfter(root, cps, cutoff))
  {
    hide IsMonthKey, Index, Dated, MonthFromFilename, Stays, FileName;
    var left := RootAfter(root, cps, cutoff);
    forall cp, m | cp in root.dirs && IsMonthKey(m)
      ensures FileName(m) in left[cp] <==> KeepsMonth(root, before, cp, m)
    {
      StaysByMonth(m, cutoff);
    }
    forall cp, name | cp in root.dirs && name in root.dirs[cp] && MonthFromFilename(name) == None
      ensures name in left[cp]
    {
      NotStays(name, cutoff);
    }
  }

  lemma DirLoss(root: Root, cps: seq<string>, cutoff: int, cp: string, r: Removal)
    requires Listed(root, cps)
    ensures r in DirRemovals(root, cutoff)(cp) <==>
      && r.cpId == cp && cp in root.dirs && FileName(r.month) in root.dirs[cp] && FileName(r.month) !in DirLeft(root, cp, cutoff)
      && r.bytes == |root.dirs[cp][FileName(r.month)]|
  {
    hide MonthFromFilename, Stays, Pruned, FlatMap, RemovalOf, FileName;
    if cp in root.dirs && cp !in root.unreadable {
      var (dir, entries, stuck) := (root.dirs[cp], root.entries[cp], StuckIn(root, cp));
      var f := RemovalOf(cp, dir, cutoff, stuck);
      FlatMapMembers(entries, f, r);
      forall name ensures r in f(name) <==> Lost(cp, dir, cutoff, stuck, name, r) { LostIsRemoval(cp, dir, cutoff, stuck, name, r); }
      LostByName(cp, dir, cutoff, stuck, r);
    }
  }

  lemma LostByName(cp: string, dir: Directory, cutoff: int, stuck: set<string>, r: Removal)
    ensures (exists name :: Lost(cp, dir, cutoff, stuck, name, r)) <==>
      && r.cpId == cp && FileName(r.month) in dir && FileName(r.month) !in Pruned(dir, cutoff, stuck) && r.bytes == |dir[FileName(r.month)]|
  {
    hide Stays;
    if name :| Lost(cp, dir, cutoff, stuck, name, r) {
      MonthNamed(name);
    }
    var name := FileName(r.month);
    if r.cpId == cp && name in dir && name !in Pruned(dir, cutoff, stuck) && r.bytes == |dir[name]| {
      NotStays(name, cutoff);
      MonthNamed(name);
      SuffixCut(MonthFromFilename(name).value, r.month);
      assert Lost(cp, dir, cutoff, stuck, name, r);
    }
  }

  lemma MonthNamed(name: string)
    ensures MonthFromFilename(name).Some? ==> name == FileName(MonthFromFilename(name).value)
  {
    if MonthFromFilename(name).Some? { assert name == name[..7] + name[7..]; }
  }

  lemma SuffixCut(a: string, b: string)
    requires FileName(a) == FileName(b)
    ensures a == b
  {
    assert |a| == |b|;
    assert a == FileName(a)[..|a|] && b == FileName(b)[..|b|];
  }

  lemma {:induction false} AllDistinct(root: Root, all: seq<string>, cps: seq<string>, cutoff: int)
    requires Listed(root, all) && Once(cps)
    ensures Distinct(FlatMap(cps, DirRemovals(root, cutoff)))
  {
    if cps != [] {
      var (cp, rest, f) := (cps[0], cps[1..], DirRemovals(root, cutoff));
      AllDistinct(root, all, rest, cutoff);
      assert cp !in rest;
      if cp in root.dirs && cp !in root.unreadable { RemovedOnce(cp, root.dirs[cp], root.entries[cp], cutoff, StuckIn(root, cp)); }
      assert Distinct(f(cp)) by { hide FlatMap, RemovalOf; }
      hide DirRemovals, RemovalOf, DirLeft, Once, Listed, FileName;
      forall r | r in f(cp)
        ensures r !in FlatMap(rest, f)
      {
        DirLoss(root, all, cutoff, cp, r);
        FlatMapMembers(rest, f, r);
        forall other | other in rest && r in f(other) ensures false { DirLoss(root, all, cutoff, other, r); }
      }
      DistinctConcat(f(cp), FlatMap(rest, f));
    }
  }

  lemma DistinctConcat(first: seq<Removal>, rest: seq<Removal>)
    requires Distinct(first) && Distinct(rest) && forall r :: r in first ==> r !in rest
    ensures Distinct(first + rest)
  {
    assert forall i :: 0 <= i < |first| ==> first[i] in first;
  }

  lemma RemovalsTell(root: Root, cps: seq<string>, cutoff: int)
    requires Listed(root, cps)
    ensures RootAfter(root, cps, cutoff).Keys == root.dirs.Keys
    ensures TellsTheLoss(root, RootAfter(root, cps, cutoff), FlatMap(cps, DirRemovals(root, cutoff)))
  {
    AllDistinct(root, cps, cps, cutoff);
    var f := DirRemovals(root, cutoff);
    hide DirRemovals, DirLeft, FileName, FlatMap, Once;
    forall r: Removal
      ensures r in FlatMap(cps, f) <==>
        && r.cpId in root.dirs && FileName(r.month) in root.dirs[r.cpId] && FileName(r.month) !in RootAfter(root, cps, cutoff)[r.cpId]
        && r.bytes == |root.dirs[r.cpId][FileName(r.month)]|
    {
      FlatMapMembers(cps, f, r);
      forall cp ensures r in f(cp) <==>
        && r.cpId == cp && cp in root.dirs && FileName(r.month) in root.dirs[cp] && FileName(r.month) !in DirLeft(root, cp, cutoff)
        && r.bytes == |root.dirs[cp][FileName(r.month)]|
      {
        DirLoss(root, cps, cutoff, cp, r);
      }
    }
  }

  lemma DirFails(root: Root, cps: seq<string>, cutoff: int, cp: string, e: Failure)
    requires Listed(root, cps) && cp in root.dirs
    ensures e in DirFailures(root, cutoff)(cp) <==>
      e.cpId == cp && match e.file
        case None => cp in root.unreadable
        case Some(name) => cp !in root.unreadable && name in root.dirs[cp] && name in StuckIn(root, cp) && !Stays(name, cutoff)
  {
    hide Stays, FlatMap, FailureOf;
    if cp !in root.unreadable {
      var (dir, entries, stuck) := (root.dirs[cp], root.entries[cp], StuckIn(root, cp));
      var f := FailureOf(cp, cutoff, stuck);
      FlatMapMembers(entries, f, e);
      forall name | name in entries ensures e in f(name) <==> Failed(cp, dir, cutoff, stuck, e) && e.file == Some(name) {
        FailedIsFailure(cp, dir, cutoff, stuck, name, e);
      }
    }
  }

  lemma FailuresTell(root: Root, cps: seq<string>, cutoff: int, before: nat)
    requires Listed(root, cps) && cutoff == Dated(before)
    ensures TellsTheFailures(root, before, FlatMap(cps, DirFailures(root, cutoff)))
  {
    var errors := FlatMap(cps, DirFailures(root, cutoff));
    hide DirFailures, FlatMap, Stays, Dated, IsMonthKey, Index, FileName, Once;
    forall e: Failure
      ensures e in errors <==> e.cpId in root.dirs && match e.file
        case None => e.cpId in root.unreadable
        case Some(name) => e.cpId !in root.unreadable && name in root.dirs[e.cpId] && name in StuckIn(root, e.cpId) && !Stays(name, cutoff)
    {
      FlatMapMembers(cps, DirFailures(root, cutoff), e);
      forall cp | cp in cps ensures e in DirFailures(root, cutoff)(cp) <==>
        e.cpId == cp && match e.file
          case None => cp in root.unreadable
          case Some(name) => cp !in root.unreadable && name in root.dirs[cp] && name in StuckIn(root, cp) && !Stays(name, cutoff)
      {
        DirFails(root, cps, cutoff, cp, e);
      }
    }
    forall m | IsMonthKey(m)
      ensures Stays(FileName(m), cutoff) <==> Dated(Index(m)) >= Dated(before)
    {
      StaysByMonth(m, cutoff);
    }
  }

  /** Dating a month and counting it agree for all months exactly when the cutoff is in the year 2000 or later,
      and from the year 100 on for all months from there on. */
  lemma DatedIff(before: nat)
    ensures (forall t: nat :: Dated(t) >= Dated(before) <==> t >= before) <==> before >= 24000
    ensures before >= 1200 ==> forall t: nat :: t >= 1200 ==> (Dated(t) >= Dated(before) <==> t >= before)
  {
    if before < 1200 {
      assert Dated(1200) == 1200 < Dated(before);
    } else if before < 24000 {
      assert Dated(1199) == 23999;
    }
  }

  method PruneEventLog(root: Root, cps: seq<string>, now: string, retention: nat)
    returns (left: map<string, Directory>, removed: seq<Removal>, errors: seq<Failure>)
    requires IsMonthKey(now) && retention <= Index(now) && Listed(root, cps)
    ensures KeepsFrom(root, Index(now) - retention, left)
    ensures TellsTheLoss(root, left, removed) && TellsTheFailures(root, Index(now) - retention, errors)
    ensures forall cp, m ::
      Readable(root, cp) && IsMonthKey(m) && FileName(m) in root.dirs[cp] && FileName(m) !in StuckIn(root, cp)
      && (Index(now) - retention >= 24000 || (Index(now) - retention >= 1200 && Index(m) >= 1200)) ==>
        (FileName(m) in left[cp] <==> Index(m) >= Index(now) - retention)
    ensures left.Keys == root.dirs.Keys
    ensures forall cp :: cp in root.dirs ==> left[cp] == DirLeft(root, cp, MonthStart(Cutoff(now, retention)))
    ensures removed == FlatMap(cps, DirRemovals(root, MonthStart(Cutoff(now, retention))))
    ensures errors == FlatMap(cps, DirFailures(root, MonthStart(Cutoff(now, retention))))
  {
    hide MonthStart, Cutoff, IsMonthKey, HasMonthShape, FlatMap, DirLeft, DirRemovals, DirFailures, Index, Dated, FileName,
      KeepsFrom, TellsTheLoss, TellsTheFailures;
    CutoffIsBack(now, retention);
    ghost var (cutoff, before) := (MonthStart(Cutoff(now, retention)), Index(now) - retention);
    left, removed, errors := PruneDirectories(root, cps, MonthStart(Cutoff(now, retention)));
    LeftKeeps(root, cps, cutoff, before);
    RemovalsTell(root, cps, cutoff);
    FailuresTell(root, cps, cutoff, before);
    DatedIff(before);
    KeepsByIndex(root, before, left);
  }

  lemma KeepsByIndex(root: Root, before: nat, left: map<string, Directory>)
    requires KeepsFrom(root, before, left)
    ensures left.Keys == root.dirs.Keys
    ensures forall cp, m ::
      Readable(root, cp) && IsMonthKey(m) && FileName(m) in root.dirs[cp] && FileName(m) !in StuckIn(root, cp)
      && (before >= 24000 || (before >= 1200 && Index(m) >= 1200)) ==>
        (FileName(m) in left[cp] <==> Index(m) >= before)
  {
    hide IsMonthKey, Index, FileName, StuckIn, MonthFromFilename;
    DatedIff(before);
  }

  lemma RootStart(root: Root, cutoff: int)
    ensures RootAfter(root, [], cutoff) == root.dirs
    ensures FlatMap([], DirRemovals(root, cutoff)) == [] && FlatMap([], DirFailures(root, cutoff)) == []
  {
  }

  /** Pruning again, also with a later cutoff, removes nothing that the later run alone would
      keep and leaves nothing more: the same run twice is the run once. */
  lemma PruneAgain(dir: Directory, cutoff: int, later: int, stuck: set<string>)
    requires cutoff <= later
    ensures Pruned(Pruned(dir, cutoff, stuck), later, stuck) == Pruned(dir, later, stuck)
  {
  }

  /** A month at or after the cutoff month, in the order the search compares months by, is
      never deleted - exactly when the cutoff year is 100 or later, because of the way
      Date.UTC reads two-digit years. */
  lemma KeepsMonthsFromCutoff(cutoff: string)
    requires IsMonthKey(cutoff)
    ensures (forall month :: IsMonthKey(month) && AtMost(cutoff, month) ==> MonthStart(month) >= MonthStart(cutoff))
       <==> Number(cutoff[..4]) >= 100
  {
    hide Less, Number, Key, KeyOf;
    KeyOfIndex(cutoff);
    if Number(cutoff[..4]) >= 100 {
      forall month | IsMonthKey(month) && AtMost(cutoff, month)
        ensures MonthStart(month) >= MonthStart(cutoff)
      {
        KeyOfIndex(month);
        KeyOrder(Index(month), Index(cutoff));
      }
    } else {
      var month := Key(1200);
      KeyShape(1200);
      KeyOrder(1200, Index(cutoff));
      assert Number(month[..4]) == 100 by { YearOf(month, 1200); }
    }
  }

  lemma YearOf(month: string, t: nat)
    requires IsMonthKey(month) && Index(month) == t
    ensures Number(month[..4]) == t / 12
  {
    hide Number;
    YearAndMonth(Number(month[..4]), Number(month[5..]));
  }

  /** Pruning changes no search whose range starts at or after the cutoff month. */
  lemma PruneKeepsSearches(codec: Codec, text: EventSearch.Text, dir: Directory, query: EventSearch.Query,
                           cutoff: string, stuck: set<string>)
    requires IsMonthKey(cutoff) && Number(cutoff[..4]) >= 100
    requires IsUtc(query.from) && IsUtc(query.to) && AtMost(cutoff, query.from[..7])
    ensures
      var months := KeysDown(Index(query.from[..7]), Index(query.to[..7]));
      var keep := EventSearch.Selecting(text, query);
      OffFiles(codec, keep, Pruned(dir, MonthStart(cutoff), stuck), months) == OffFiles(codec, keep, dir, months)
  {
    hide Less, Number, KeysDown, Index, MonthStart, EventSearch.Selected;
    var months := KeysDown(Index(query.from[..7]), Index(query.to[..7]));
    forall month | month in months
      ensures FileName(month) in dir ==> Stays(FileName(month), MonthStart(cutoff))
    {
      InRange(query.from[..7], query.to[..7], month);
      AtMostTransitive(cutoff, query.from[..7], month);
      MonthStays(cutoff, month);
    }
    SameFiles(codec, EventSearch.Selecting(text, query), dir, Pruned(dir, MonthStart(cutoff), stuck), months);
  }

  lemma InRange(start: string, end: string, month: string)
    requires IsMonthKey(start) && IsMonthKey(end)
    requires month in KeysDown(Index(start), Index(end))
    ensures IsMonthKey(month) && AtMost(start, month)
  {
    hide Less, Number, Key, IsMonthKey, Index, KeysDown;
    KeyOfIndex(end);
    KeysDownAt(Index(start), Index(end));
    var keys := KeysDown(Index(start), Index(end));
    var i :| 0 <= i < |keys| && keys[i] == month;
    KeyShape(Index(end) - i);
    RangeIsComplete(start, end, month);
  }

  lemma MonthStays(cutoff: string, month: string)
    requires IsMonthKey(cutoff) && Number(cutoff[..4]) >= 100 && IsMonthKey(month) && AtMost(cutoff, month)
    ensures Stays(FileName(month), MonthStart(cutoff))
  {
    hide Less, Number, MonthStart;
    KeepsMonthsFromCutoff(cutoff);
    assert FileName(month)[..7] == month;
  }

  lemma {:induction false} SameFiles(codec: Codec, keep: Filter, dir: Directory, left: Directory, months: seq<string>)
    requires forall month :: month in months ==>
      (FileName(month) in dir <==> FileName(month) in left)
      && (FileName(month) in dir ==> dir[FileName(month)] == left[FileName(month)])
    ensures OffFiles(codec, keep, left, months) == OffFiles(codec, keep, dir, months)
  {
    hide FileName;
    if months != [] { SameFiles(codec, keep, dir, left, months[1..]); }
  }
}
