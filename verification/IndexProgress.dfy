/** What an instance achieves when the others leave it alone for a while: a batch
    lands, a load brings memory up to date, a read fills the cache. */
module IndexProgress {
  import opened Prelude
  import opened MetaMerge
  import opened IndexProtocol

  // ------------------------------------ runs of one instance left on its own

  ghost predicate Solo(p: Pid, d: Disk, x: Proc, acts: seq<Action>, e: Disk, y: Proc)
    decreases |acts|
  {
    if acts == [] then e == d && y == x
    else Enabled(d, p, x, acts[0]) && Solo(p, NextDisk(d, p, x, acts[0]), NextProc(d, p, x, acts[0]), acts[1..], e, y)
  }

  lemma {:induction false} SoloAnd(p: Pid, d: Disk, x: Proc, s: seq<Action>, e: Disk, y: Proc, a: Action)
    requires Solo(p, d, x, s, e, y) && Enabled(e, p, y, a)
    ensures Solo(p, d, x, s + [a], NextDisk(e, p, y, a), NextProc(e, p, y, a))
    decreases |s|
  {
    if s == [] {
      assert s + [a] == [a] && [a][1..] == [];
    } else {
      SoloAnd(p, NextDisk(d, p, x, s[0]), NextProc(d, p, x, s[0]), s[1..], e, y, a);
      assert (s + [a])[0] == s[0] && (s + [a])[1..] == s[1..] + [a];
    }
  }

  ghost predicate Reaches(p: Pid, d: Disk, x: Proc, e: Disk, y: Proc) {
    exists acts :: Solo(p, d, x, acts, e, y)
  }

  lemma Takes(p: Pid, d: Disk, x: Proc, e: Disk, y: Proc, a: Action, f: Disk, z: Proc)
    requires Reaches(p, d, x, e, y) && Enabled(e, p, y, a)
    requires f == NextDisk(e, p, y, a) && z == NextProc(e, p, y, a)
    ensures Reaches(p, d, x, f, z)
  {
    var acts :| Solo(p, d, x, acts, e, y);
    SoloAnd(p, d, x, acts, e, y, a);
    assert Solo(p, d, x, acts + [a], f, z);
  }

  function Tagged(p: Pid, acts: seq<Action>): (t: seq<(Pid, Action)>)
    ensures |t| == |acts| && forall i :: 0 <= i < |t| ==> t[i] == (p, acts[i])
  {
    seq(|acts|, i requires 0 <= i < |acts| => (p, acts[i]))
  }

  /** Nobody else moves. */
  lemma {:induction false} SoloIsRun(p: Pid, procs: map<Pid, Proc>, d: Disk, x: Proc, acts: seq<Action>, e: Disk, y: Proc)
    requires p in procs && procs[p] == x && Solo(p, d, x, acts, e, y)
    ensures Runs(World(d, procs), Tagged(p, acts), World(e, procs[p := y]))
    decreases |acts|
  {
    if acts != [] {
      var d1, x1 := NextDisk(d, p, x, acts[0]), NextProc(d, p, x, acts[0]);
      SoloIsRun(p, procs[p := x1], d1, x1, acts[1..], e, y);
      assert Tagged(p, acts)[1..] == Tagged(p, acts[1..]);
      assert procs[p := x1][p := y] == procs[p := y];
      assert Step(World(d, procs), p, acts[0]) == World(d1, procs[p := x1]);
    } else {
      assert Tagged(p, acts) == [] && procs[p := y] == procs;
    }
  }

  lemma Begins(p: Pid, d: Disk, x: Proc)
    ensures Reaches(p, d, x, d, x)
  {
    assert Solo(p, d, x, [], d, x);
  }

  /** The instance gets from one state of the world to another on its own. */
  ghost predicate Gets(w: World, p: Pid, e: Disk, y: Proc) {
    exists acts :: Runs(w, Tagged(p, acts), World(e, w.procs[p := y]))
  }

  lemma ReachesGets(w: World, p: Pid, e: Disk, y: Proc)
    requires p in w.procs && Reaches(p, w.disk, w.procs[p], e, y)
    ensures Gets(w, p, e, y)
  {
    var acts :| Solo(p, w.disk, w.procs[p], acts, e, y);
    SoloIsRun(p, w.procs, w.disk, w.procs[p], acts, e, y);
    assert w == World(w.disk, w.procs);
    assert Runs(w, Tagged(p, acts), World(e, w.procs[p := y]));
  }

  // ----------------------------------------------------------------- a read

  function At(y: Proc, r: nat, rd: Reader): Proc { y.(readers := y.readers[r := rd]) }

  lemma ReadToMiss(p: Pid, d: Disk, x: Proc, y: Proc, r: nat, rd: Reader) returns (z: Proc)
    requires Reaches(p, d, x, d, y) && r in y.readers && y.readers[r] == rd && rd.phase.Entered?
    requires rd.sid in y.sessions && rd.sid !in y.cache
    ensures Reaches(p, d, x, d, z) && z == At(y, r, rd.(phase := Missed))
  {
    var y1 := At(y, r, rd.(phase := Checked));
    Takes(p, d, x, d, y, CheckIndexed(r), d, y1);
    z := At(y, r, rd.(phase := Missed));
    assert y1.readers[r := rd.(phase := Missed)] == z.readers;
    Takes(p, d, x, d, y1, LookCache(r), d, z);
  }

  lemma ReadToGen(p: Pid, d: Disk, x: Proc, y: Proc, r: nat, rd: Reader) returns (z: Proc)
    requires Reaches(p, d, x, d, y) && r in y.readers && y.readers[r] == rd && rd.phase.Entered?
    requires rd.sid in y.sessions && rd.sid !in y.cache
    ensures Reaches(p, d, x, d, z) && z == At(y, r, rd.(phase := GotGen(y.gens.Of(rd.sid))))
  {
    var y1 := ReadToMiss(p, d, x, y, r, rd);
    z := At(y, r, rd.(phase := GotGen(y.gens.Of(rd.sid))));
    assert y1.readers[r := z.readers[r]] == z.readers;
    Takes(p, d, x, d, y1, CaptureGen(r), d, z);
  }

  /** From the check on, a read that is left alone caches what the file holds. */
  lemma ReadOn(p: Pid, d: Disk, x: Proc, y: Proc, r: nat, rd: Reader) returns (z: Proc)
    requires Reaches(p, d, x, d, y) && r in y.readers && y.readers[r] == rd && rd.phase.Entered?
    requires rd.sid in y.sessions && rd.sid !in y.cache
    ensures Reaches(p, d, x, d, z)
    ensures z == y.(cache := y.cache[rd.sid := FileVer(d, rd.sid)], readers := y.readers - {r})
  {
    var y1 := ReadToGen(p, d, x, y, r, rd);
    var y2 := At(y, r, rd.(phase := GotTurns(y.gens.Of(rd.sid), FileVer(d, rd.sid))));
    assert y1.readers[r := y2.readers[r]] == y2.readers;
    Takes(p, d, x, d, y1, ReadTurns(r), d, y2);
    z := y.(cache := y.cache[rd.sid := FileVer(d, rd.sid)], readers := y.readers - {r});
    assert y2.readers - {r} == z.readers;
    Takes(p, d, x, d, y2, FinishRead(r, true), d, z);
  }

  /** A read of an indexed session that is not cached, left alone, leaves the version
      of the turns file in the cache and changes nothing else. */
  lemma {:induction false} UndisturbedRead(w: World, p: Pid, r: nat, sid: Sid)
    requires p in w.procs && r !in w.procs[p].readers && sid in w.procs[p].sessions && sid !in w.procs[p].cache
    ensures var x := w.procs[p]; Gets(w, p, w.disk, x.(cache := x.cache[sid := FileVer(w.disk, sid)]))
  {
    var d, x := w.disk, w.procs[p];
    Begins(p, d, x);
    var y := x.(readers := x.readers[r := Reader(sid, 0, Entered)]);
    Takes(p, d, x, d, x, BeginRead(r, sid), d, y);
    var z := ReadOn(p, d, x, y, r, Reader(sid, 0, Entered));
    assert y.readers - {r} == x.readers;
    ReachesGets(w, p, d, z);
  }

  /** A first attempt whose session moved on is not lost: the read starts over and
      caches what the file holds now. */
  lemma {:induction false} MovedReadStartsOver(w: World, p: Pid, r: nat)
    requires p in w.procs && r in w.procs[p].readers && w.procs[p].readers[r].phase.GotTurns?
    requires var rd, x := w.procs[p].readers[r], w.procs[p];
             && rd.attempt == 0 && x.gens.Of(rd.sid) != rd.phase.g && rd.sid in x.sessions && rd.sid !in x.cache
    ensures var x := w.procs[p];
            var sid := x.readers[r].sid;
            Gets(w, p, w.disk, x.(cache := x.cache[sid := FileVer(w.disk, sid)], readers := x.readers - {r}))
  {
    var d, x := w.disk, w.procs[p];
    var sid := x.readers[r].sid;
    Begins(p, d, x);
    var y := x.(readers := x.readers[r := Reader(sid, 1, Entered)]);
    Takes(p, d, x, d, x, FinishRead(r, true), d, y);
    var z := ReadOn(p, d, x, y, r, Reader(sid, 1, Entered));
    assert y.readers - {r} == x.readers - {r};
    ReachesGets(w, p, d, z);
  }

  /** A session whose turns file cannot be read leaves memory, and only it. */
  lemma {:induction false} UnreadableIsDropped(w: World, p: Pid, r: nat, sid: Sid)
    requires p in w.procs && r !in w.procs[p].readers && sid in w.procs[p].sessions && sid !in w.procs[p].cache
    ensures var x := w.procs[p]; Gets(w, p, w.disk, x.(sessions := x.sessions - {sid}, dropped := x.dropped + {sid}))
  {
    var d, x := w.disk, w.procs[p];
    Begins(p, d, x);
    var y := x.(readers := x.readers[r := Reader(sid, 0, Entered)]);
    Takes(p, d, x, d, x, BeginRead(r, sid), d, y);
    var g := x.gens.Of(sid);
    var y1 := ReadToGen(p, d, x, y, r, Reader(sid, 0, Entered));
    var y2 := At(y, r, Reader(sid, 0, GotError(g)));
    assert y1.readers[r := Reader(sid, 0, GotError(g))] == y2.readers && y2.readers - {r} == x.readers;
    Takes(p, d, x, d, y1, ReadFails(r), d, y2);
    var z := x.(sessions := x.sessions - {sid}, dropped := x.dropped + {sid});
    Takes(p, d, x, d, y2, FinishError(r), d, z);
    ReachesGets(w, p, d, z);
  }

  // ----------------------------------------------------------------- a load

  /** The two maps say the same about the session. */
  predicate SameEntry(a: Metas, b: Metas, sid: Sid) {
    (sid in a <==> sid in b) && (sid in a ==> a[sid] == b[sid])
  }

  /** A load left alone makes memory the file; the next LoadIfChanged will skip; and
      the cache keeps exactly the sessions whose entry did not change. */
  lemma {:induction false} UndisturbedLoad(w: World, p: Pid, l: nat, order: seq<Sid>) returns (y: Proc)
    requires p in w.procs && l !in w.procs[p].loaders && ToSet(order) == Changed(w.procs[p].sessions, w.disk.metas)
    ensures Gets(w, p, w.disk, y)
    ensures y.sessions == w.disk.metas && y.dropped == {} && FastPath(w.disk, y)
    ensures forall sid :: sid in y.cache <==>
              sid in w.procs[p].cache && w.procs[p].sessions != map[] && SameEntry(w.procs[p].sessions, w.disk.metas, sid)
    ensures forall sid :: sid in y.cache ==> y.cache[sid] == w.procs[p].cache[sid]
  {
    var d, x := w.disk, w.procs[p];
    var x2 := LoadOn(p, d, x, l);
    y := NextProc(d, p, x2, SwapLoad(l, order));
    Takes(p, d, x, d, x2, SwapLoad(l, order), d, y);
    ReachesGets(w, p, d, y);
    ChangedIff(x.sessions, d.metas);
    assert y.cache == if x.sessions == map[] then map[] else x.cache - ToSet(order);
  }

  lemma {:induction false} LoadOn(p: Pid, d: Disk, x: Proc, l: nat) returns (x2: Proc)
    requires l !in x.loaders
    ensures Reaches(p, d, x, d, x2) && x2 == x.(loaders := x.loaders[l := Loaded(d.mtime, d.metas, |d.log|)])
  {
    Begins(p, d, x);
    var x1 := x.(loaders := x.loaders[l := Statted(d.mtime)]);
    Takes(p, d, x, d, x, StatLoad(l), d, x1);
    x2 := x.(loaders := x.loaders[l := Loaded(d.mtime, d.metas, |d.log|)]);
    assert x1.loaders[l := Loaded(d.mtime, d.metas, |d.log|)] == x2.loaders;
    Takes(p, d, x, d, x1, ReadLoad(l), d, x2);
  }

  lemma ChangedIff(a: Metas, b: Metas)
    ensures forall sid :: sid in Changed(a, b) <==> !SameEntry(a, b, sid)
  {
  }

  // ---------------------------------------------------------------- a batch

  /** The ids locked so far. */
  ghost predicate Locked(p: Pid, d: Disk, x: Proc, upsert: bool, ids: seq<Sid>, i: nat, e: Disk, y: Proc) {
    && i <= |ids|
    && y == x.(writer := Writer(Locking(i), upsert, ids, ToSet(ids[..i]), map[]))
    && e == d.(locks := e.locks) && LocksAre(d.locks, e.locks, ToSet(ids[..i]))
  }

  /** More locks are held, and those held before are as they were. */
  ghost predicate LocksAre(before: map<Sid, Pid>, now: map<Sid, Pid>, more: set<Sid>) {
    now.Keys == before.Keys + more && forall sid :: sid in before && sid !in more ==> now[sid] == before[sid]
  }

  ghost predicate Free(d: Disk, x: Proc, ids: seq<Sid>) {
    && x.writer == NoBatch && d.metaLock == None
    && ids != [] && Increasing(ids) && forall i :: 0 <= i < |ids| ==> ids[i] !in d.locks
  }

  lemma {:induction false} OneMoreId(ids: seq<Sid>, i: nat)
    requires i < |ids| && Increasing(ids)
    ensures ToSet(ids[..i + 1]) == ToSet(ids[..i]) + {ids[i]} && ids[i] !in ToSet(ids[..i])
    ensures ToSet(ids[i..]) == ToSet(ids[i + 1..]) + {ids[i]} && ids[i] !in ToSet(ids[i + 1..])
  {
    assert ids[..i + 1] == ids[..i] + [ids[i]] && ids[i..] == [ids[i]] + ids[i + 1..];
    LessIrreflexive(ids[i]);
    forall sid | sid in ids[..i] ensures sid != ids[i] { var j :| 0 <= j < i && ids[..i][j] == sid; }
    var rest := ids[i + 1..];
    forall sid | sid in rest ensures sid != ids[i] {
      var j :| 0 <= j < |rest| && rest[j] == sid;
      assert ids[i + 1 + j] == sid;
    }
  }

  lemma {:induction false} LockAll(p: Pid, d: Disk, x: Proc, upsert: bool, ids: seq<Sid>, i: nat) returns (e: Disk, y: Proc)
    requires Free(d, x, ids) && i <= |ids|
    ensures Reaches(p, d, x, e, y) && Locked(p, d, x, upsert, ids, i, e, y)
  {
    if i == 0 {
      Begins(p, d, x);
      e, y := d, x.(writer := Writer(Locking(0), upsert, ids, {}, map[]));
      Takes(p, d, x, d, x, StartBatch(upsert, ids), e, y);
      assert ToSet(ids[..0]) == {};
    } else {
      var e0, y0 := LockAll(p, d, x, upsert, ids, i - 1);
      OneMoreId(ids, i - 1);
      var sid := ids[i - 1];
      e := e0.(locks := e0.locks[sid := p]);
      y := x.(writer := Writer(Locking(i), upsert, ids, ToSet(ids[..i]), map[]));
      Takes(p, d, x, e0, y0, LockId, e, y);
    }
  }

  /** The turns files written so far, each with a version of its own. */
  ghost predicate TurnIs(d: Disk, e: Disk, upsert: bool, done: Metas, sid: Sid) {
    if sid in done
    then sid in e.turns && e.turns[sid] == TurnFile(done[sid], upsert) && d.clock <= done[sid] < e.clock
    else (sid in e.turns <==> sid in d.turns) && (sid in d.turns ==> e.turns[sid] == d.turns[sid])
  }

  ghost predicate Wrote(d: Disk, x: Proc, upsert: bool, ids: seq<Sid>, i: nat, e: Disk, y: Proc) {
    && i <= |ids| && d.clock <= e.clock
    && y == x.(writer := Writer(WritingTurns(i), upsert, ids, ToSet(ids), y.writer.done))
    && y.writer.done.Keys == ToSet(ids[..i])
    && e == d.(locks := e.locks, turns := e.turns, clock := e.clock, open := e.open)
    && LocksAre(d.locks, e.locks, ToSet(ids))
    && forall sid :: TurnIs(d, e, upsert, y.writer.done, sid)
  }

  lemma {:induction false} WriteAll(p: Pid, d: Disk, x: Proc, upsert: bool, ids: seq<Sid>, i: nat) returns (e: Disk, y: Proc)
    requires Free(d, x, ids) && i <= |ids|
    ensures Reaches(p, d, x, e, y) && Wrote(d, x, upsert, ids, i, e, y)
  {
    if i == 0 {
      var y0;
      e, y0 := LockAll(p, d, x, upsert, ids, |ids|);
      assert ids[..|ids|] == ids && ToSet(ids[..0]) == {};
      y := x.(writer := Writer(WritingTurns(0), upsert, ids, ToSet(ids), map[]));
      Takes(p, d, x, e, y0, BeginTurns, e, y);
    } else {
      var e0, y0 := WriteAll(p, d, x, upsert, ids, i - 1);
      OneMoreId(ids, i - 1);
      e, y := WriteOne(p, d, x, upsert, ids, i - 1, e0, y0);
    }
  }

  lemma {:induction false} WriteOne(p: Pid, d: Disk, x: Proc, upsert: bool, ids: seq<Sid>, i: nat, e0: Disk, y0: Proc)
    returns (e: Disk, y: Proc)
    requires Reaches(p, d, x, e0, y0) && Wrote(d, x, upsert, ids, i, e0, y0) && i < |ids|
    requires ToSet(ids[..i + 1]) == ToSet(ids[..i]) + {ids[i]}
    ensures Reaches(p, d, x, e, y) && Wrote(d, x, upsert, ids, i + 1, e, y)
  {
    var sid, done := ids[i], y0.writer.done[ids[i] := e0.clock];
    assert sid in ToSet(ids);
    e := e0.(turns := e0.turns[sid := TurnFile(e0.clock, upsert)], clock := e0.clock + 1, open := e0.open + {sid});
    y := x.(writer := Writer(WritingTurns(i + 1), upsert, ids, ToSet(ids), done));
    Takes(p, d, x, e0, y0, WriteTurns, e, y);
    assert done.Keys == ToSet(ids[..i + 1]);
    forall s ensures TurnIs(d, e, upsert, done, s) { assert TurnIs(d, e0, upsert, y0.writer.done, s); }
  }

  /** The delta a batch commits. */
  function DeltaFor(upsert: bool, done: Metas): MetaDelta<Ver> {
    if upsert then MetaDelta(done, {}) else MetaDelta(map[], done.Keys)
  }

  /** From the turns files to the meta lock, */
  lemma {:induction false} LockMetas(p: Pid, d: Disk, x: Proc, wr: Writer, e: Disk, y: Proc) returns (f: Disk, z: Proc)
    requires Reaches(p, d, x, e, y) && e.metaLock == None && y == x.(writer := wr)
    requires wr.phase == WritingTurns(|wr.ids|) && wr.done != map[]
    ensures Reaches(p, d, x, f, z) && f == e.(metaLock := Some(p)) && z == x.(writer := wr.(phase := HasMeta))
  {
    var y1 := x.(writer := wr.(phase := WantMeta));
    Takes(p, d, x, e, y, EndTurns, e, y1);
    f, z := e.(metaLock := Some(p)), x.(writer := wr.(phase := HasMeta));
    Takes(p, d, x, e, y1, LockMeta, f, z);
  }

  /** to the new meta file, */
  lemma {:induction false} RenameAll(p: Pid, d: Disk, x: Proc, wr: Writer, e: Disk, y: Proc) returns (f: Disk, z: Proc)
    requires Reaches(p, d, x, e, y) && e.metaLock == None && y == x.(writer := wr)
    requires wr.phase == WritingTurns(|wr.ids|) && wr.done != map[]
    ensures Reaches(p, d, x, f, z)
    ensures f.metas == Merge(e.metas, DeltaFor(wr.upsert, wr.done)) && f.turns == e.turns && f.locks == e.locks && f.clock >= e.clock
    ensures z == x.(writer := wr.(phase := Renamed(f.metas)))
  {
    var f1, z1 := LockMetas(p, d, x, wr, e, y);
    var z2 := x.(writer := wr.(phase := Merging(e.metas)));
    Takes(p, d, x, f1, z1, ReadMeta, f1, z2);
    f := NextDisk(f1, p, z2, Rename);
    z := x.(writer := wr.(phase := Renamed(f.metas)));
    Takes(p, d, x, f1, z2, Rename, f, z);
  }

  /** to the bookkeeping, */
  lemma {:induction false} BookAll(p: Pid, d: Disk, x: Proc, wr: Writer, f: Disk, z: Proc) returns (g: Disk, v: Proc)
    requires Reaches(p, d, x, f, z) && z == x.(writer := wr) && wr.phase == Renamed(f.metas)
    ensures Reaches(p, d, x, g, v) && g == f.(metaLock := None)
    ensures v == x.(writer := wr.(phase := Booked), stampMtime := v.stampMtime, stampHash := v.stampHash)
    ensures f.metas == Merge(x.sessions, DeltaFor(wr.upsert, wr.done)) ==> FastPath(g, v)
  {
    var z1 := CompareAll(p, d, x, wr, f, z);
    g := f.(metaLock := None);
    v := NextProc(f, p, z1, Book);
    Takes(p, d, x, f, z1, Book, g, v);
  }

  lemma {:induction false} CompareAll(p: Pid, d: Disk, x: Proc, wr: Writer, f: Disk, z: Proc) returns (z1: Proc)
    requires Reaches(p, d, x, f, z) && z == x.(writer := wr) && wr.phase == Renamed(f.metas)
    ensures Reaches(p, d, x, f, z1)
    ensures var equal := f.metas == Merge(x.sessions, DeltaFor(wr.upsert, wr.done));
            z1 == x.(writer := wr.(phase := Compared(equal, f.metas)))
  {
    z1 := x.(writer := wr.(phase := Compared(f.metas == Merge(x.sessions, DeltaFor(wr.upsert, wr.done)), f.metas)));
    Takes(p, d, x, f, z, Compare, f, z1);
  }

  /** to memory. */
  lemma {:induction false} CommitAll(p: Pid, d: Disk, x: Proc, g: Disk, y: Proc) returns (v: Proc)
    requires Reaches(p, d, x, g, y) && y.writer.phase.Booked? && y.writer.done.Keys == ToSet(y.writer.ids)
    ensures Reaches(p, d, x, g, v)
    ensures v.writer == y.writer.(phase := Releasing, done := map[])
    ensures v.sessions == Merge(y.sessions, DeltaFor(y.writer.upsert, y.writer.done))
    ensures v.cache == if y.writer.upsert then y.cache + y.writer.done else y.cache - y.writer.done.Keys
    ensures v.stampMtime == y.stampMtime && v.stampHash == y.stampHash
  {
    v := NextProc(g, p, y, CommitMemory(y.writer.ids));
    Takes(p, d, x, g, y, CommitMemory(y.writer.ids), g, v);
  }

  lemma {:induction false} ReleaseAll(p: Pid, d: Disk, x: Proc, ids: seq<Sid>, locks: map<Sid, Pid>, g: Disk, v: Proc, i: nat)
    returns (h: Disk, u: Proc)
    requires Reaches(p, d, x, g, v) && v.writer.phase.Releasing? && v.writer.held == ToSet(ids) && Increasing(ids)
    requires LocksAre(locks, g.locks, ToSet(ids)) && (forall j :: 0 <= j < |ids| ==> ids[j] !in locks) && i <= |ids|
    ensures Reaches(p, d, x, h, u) && h == g.(locks := h.locks) && LocksAre(locks, h.locks, ToSet(ids[i..]))
    ensures u == v.(writer := v.writer.(held := ToSet(ids[i..])))
  {
    if i == 0 {
      assert ids[0..] == ids;
      h, u := g, v;
    } else {
      var h0, u0 := ReleaseAll(p, d, x, ids, locks, g, v, i - 1);
      OneMoreId(ids, i - 1);
      assert ToSet(ids[i - 1..]) - {ids[i - 1]} == ToSet(ids[i..]);
      h, u := ReleaseOne(p, d, x, h0, u0, ids[i - 1]);
      FreedLocks(locks, h0.locks, ids[i - 1], ToSet(ids[i..]));
    }
  }

  lemma {:induction false} ReleaseOne(p: Pid, d: Disk, x: Proc, g: Disk, v: Proc, sid: Sid) returns (h: Disk, u: Proc)
    requires Reaches(p, d, x, g, v) && v.writer.phase.Releasing? && sid in v.writer.held
    ensures Reaches(p, d, x, h, u) && h == g.(locks := g.locks - {sid})
    ensures u == v.(writer := v.writer.(held := v.writer.held - {sid}))
  {
    h, u := g.(locks := g.locks - {sid}), v.(writer := v.writer.(held := v.writer.held - {sid}));
    Takes(p, d, x, g, v, ReleaseId(sid), h, u);
  }

  lemma {:induction false} FreedLocks(locks: map<Sid, Pid>, now: map<Sid, Pid>, sid: Sid, more: set<Sid>)
    requires LocksAre(locks, now, more + {sid}) && sid !in locks && sid !in more
    ensures LocksAre(locks, now - {sid}, more)
  {
  }

  /** What a batch that is left alone leaves behind for one session. */
  ghost predicate LandedAt(d: Disk, x: Proc, upsert: bool, ids: seq<Sid>, e: Disk, y: Proc, sid: Sid) {
    if sid !in ids then
      && SameEntry(d.metas, e.metas, sid) && SameEntry(x.sessions, y.sessions, sid) && SameEntry(x.cache, y.cache, sid)
      && (sid in e.turns <==> sid in d.turns) && (sid in d.turns ==> e.turns[sid] == d.turns[sid])
    else if upsert then
      && sid in e.turns && e.turns[sid].present && e.turns[sid].ver >= d.clock
      && sid in e.metas && sid in y.sessions && sid in y.cache
      && e.metas[sid] == y.sessions[sid] == y.cache[sid] == e.turns[sid].ver
    else
      sid !in e.metas && sid !in y.sessions && sid !in y.cache && sid in e.turns && !e.turns[sid].present
  }

  /** A batch over sessions nobody holds, left alone, lands: turns file, meta entry,
      memory and cache of each of its sessions are of the one version it wrote, or
      are gone; other sessions are untouched; every lock is free again; and if memory
      agreed with the file, LoadIfChanged will skip the reload. */
  lemma {:induction false} UndisturbedBatchLands(w: World, p: Pid, upsert: bool, ids: seq<Sid>) returns (e: Disk, y: Proc)
    requires p in w.procs && Free(w.disk, w.procs[p], ids)
    ensures Gets(w, p, e, y) && y.writer == NoBatch && e.locks == w.disk.locks && e.metaLock == None
    ensures forall sid :: LandedAt(w.disk, w.procs[p], upsert, ids, e, y, sid)
    ensures w.procs[p].sessions == w.disk.metas ==> FastPath(e, y)
  {
    var d, x := w.disk, w.procs[p];
    var g, v, done := Committed(p, d, x, upsert, ids);
    var h, u := ReleaseAll(p, d, x, ids, d.locks, g, v, |ids|);
    assert ToSet(ids[|ids|..]) == {};
    assert h.locks == d.locks;
    e, y := h, u.(writer := NoBatch);
    Takes(p, d, x, h, u, EndBatch, e, y);
    ReachesGets(w, p, e, y);
    forall sid ensures LandedAt(d, x, upsert, ids, e, y, sid) {
      LandsAt(d, x, upsert, ids, g, v, done, sid);
      assert LandedAt(d, x, upsert, ids, g, v, sid);
    }
  }

  /** Everything but the release of the session locks. */
  ghost predicate IsCommitted(d: Disk, x: Proc, upsert: bool, ids: seq<Sid>, g: Disk, v: Proc, done: Metas) {
    && done.Keys == ToSet(ids) && (forall sid :: TurnIs(d, g, upsert, done, sid))
    && g.metas == Merge(d.metas, DeltaFor(upsert, done)) && v.sessions == Merge(x.sessions, DeltaFor(upsert, done))
    && v.cache == if upsert then x.cache + done else x.cache - done.Keys
  }

  lemma {:induction false} Committed(p: Pid, d: Disk, x: Proc, upsert: bool, ids: seq<Sid>)
    returns (g: Disk, v: Proc, done: Metas)
    requires Free(d, x, ids)
    ensures Reaches(p, d, x, g, v) && IsCommitted(d, x, upsert, ids, g, v, done)
    ensures v.writer == Writer(Releasing, upsert, ids, ToSet(ids), map[])
    ensures LocksAre(d.locks, g.locks, ToSet(ids)) && g.metaLock == None
    ensures x.sessions == d.metas ==> FastPath(g, v)
  {
    var e, y := WriteAll(p, d, x, upsert, ids, |ids|);
    assert ids[..|ids|] == ids;
    done := y.writer.done;
    assert ids[0] in ToSet(ids) && ids[0] in done;
    var f, z := RenameAll(p, d, x, y.writer, e, y);
    var b;
    g, b := BookAll(p, d, x, z.writer, f, z);
    v := CommitAll(p, d, x, g, b);
    forall sid ensures TurnIs(d, g, upsert, done, sid) { assert TurnIs(d, e, upsert, done, sid); }
  }

  lemma {:induction false} LandsAt(d: Disk, x: Proc, upsert: bool, ids: seq<Sid>, g: Disk, v: Proc, done: Metas, sid: Sid)
    requires IsCommitted(d, x, upsert, ids, g, v, done)
    ensures LandedAt(d, x, upsert, ids, g, v, sid)
  {
    assert TurnIs(d, g, upsert, done, sid);
    assert sid in ToSet(ids) <==> sid in ids;
    assert sid in done <==> sid in ids;
  }
}
