/** The one schedule the load fast path does not survive: a Load that read the
    meta file before an earlier local commit and swaps between a later batch's
    comparison and its bookkeeping (internal/conversations/index.go:163-184,
    index.go:1137-1165), and the exact condition under which it does no harm. */
module StaleLoad {
  import opened Prelude
  import opened MetaMerge
  import opened IndexProtocol
  import opened IndexProtocolProofs
  import opened IndexHistory
  import opened LoadFastPath
  import opened IndexProgress

  /** Exactly when the bookkeeping that follows a swap in the window is sound: in
      any reachable state, LoadIfChanged will trust memory afterwards, and memory
      is right if and only if every session outside the running batch that was
      named since the load read was absent from what it read and is last named by
      a delete. */
  lemma SwapInWindowIsSoundIffMissedNothing(
    w: World, steps: seq<(Pid, Action)>, w': World, p: Pid, l: nat, order: seq<Sid>)
    requires Init(w) && Runs(w, steps, w')
    requires CanStep(w', p, SwapLoad(l, order)) && Trusting(w'.procs[p].writer.phase)
    ensures CanStep(Step(w', p, SwapLoad(l, order)), p, Book)
    ensures var after := Step(Step(w', p, SwapLoad(l, order)), p, Book);
            var x := w'.procs[p];
            && FastPath(after.disk, after.procs[p])
            && (InMemoryMatches(after.disk, after.procs[p]) <==>
                  MissedNothing(w'.disk, x.loaders[l], x.writer.done.Keys))
  {
    InitHistory(w);
    RunKeepsHistory(w, steps, w');
    assert LoaderOk(w'.disk, w'.procs[p].loaders[l]);
    CurrentIffMissedNothing(w'.disk, p, w'.procs[p], w'.procs[p].loaders[l]);
    SwapThenBook(w'.disk, p, w'.procs[p], l, order);
  }

  lemma SwapThenBook(d: Disk, p: Pid, x: Proc, l: nat, order: seq<Sid>)
    requires ProcOk(d, p, x) && Enabled(d, p, x, SwapLoad(l, order)) && Trusting(x.writer.phase)
    ensures var y := NextProc(d, p, x, SwapLoad(l, order));
            && NextDisk(d, p, x, SwapLoad(l, order)) == d && Enabled(d, p, y, Book)
            && var e, z := NextDisk(d, p, y, Book), NextProc(d, p, y, Book);
               && FastPath(e, z)
               && (InMemoryMatches(e, z) <==> Merge(x.loaders[l].content, DeltaOf(x.writer)) == d.metas)
  {
    var y := NextProc(d, p, x, SwapLoad(l, order));
    assert y.writer == x.writer && y.sessions == x.loaders[l].content && y.dropped == {};
    var e, z := NextDisk(d, p, y, Book), NextProc(d, p, y, Book);
    assert z.sessions == y.sessions && z.dropped == {} && Pending(z) == DeltaOf(x.writer) && e.metas == d.metas;
    assert e.metas - (z.dropped - Pending(z).Keys()) == e.metas;
  }

  // ------------------------------------ runs of one instance left on its own

  /** An idle instance in a quiet directory locks a session, */
  lemma SoloLock(p: Pid, d: Disk, x: Proc, e: Disk, y: Proc, sid: Sid) returns (f: Disk, z: Proc)
    requires Reaches(p, d, x, e, y) && y.writer == NoBatch && e.locks == map[]
    ensures Reaches(p, d, x, f, z)
    ensures z == y.(writer := Writer(WritingTurns(0), true, [sid], {sid}, map[]))
    ensures f == e.(locks := map[sid := p])
  {
    z := y.(writer := Writer(Locking(0), true, [sid], {}, map[]));
    Takes(p, d, x, e, y, StartBatch(true, [sid]), e, z);
    assert {} + {sid} == {sid} && e.locks[sid := p] == map[sid := p];
    var z1 := y.(writer := Writer(Locking(1), true, [sid], {sid}, map[]));
    f := e.(locks := map[sid := p]);
    Takes(p, d, x, e, z, LockId, f, z1);
    z := y.(writer := Writer(WritingTurns(0), true, [sid], {sid}, map[]));
    Takes(p, d, x, f, z1, BeginTurns, f, z);
  }

  /** writes its turns file, */
  lemma SoloTurns(p: Pid, d: Disk, x: Proc, e: Disk, y: Proc, sid: Sid) returns (f: Disk, z: Proc)
    requires Reaches(p, d, x, e, y) && y.writer == NoBatch && e.locks == map[] && e.metaLock == None
    ensures Reaches(p, d, x, f, z)
    ensures z == y.(writer := Writer(HasMeta, true, [sid], {sid}, map[sid := e.clock]))
    ensures f.metas == e.metas && f.log == e.log && f.clock == e.clock + 1 && f.locks == map[sid := p] && f.metaLock == Some(p)
  {
    var z1;
    f, z1 := SoloWrite(p, d, x, e, y, sid);
    z := y.(writer := Writer(HasMeta, true, [sid], {sid}, map[sid := e.clock]));
    Takes(p, d, x, f, z1, LockMeta, f.(metaLock := Some(p)), z);
    f := f.(metaLock := Some(p));
  }

  lemma SoloWrite(p: Pid, d: Disk, x: Proc, e: Disk, y: Proc, sid: Sid) returns (f: Disk, z: Proc)
    requires Reaches(p, d, x, e, y) && y.writer == NoBatch && e.locks == map[]
    ensures Reaches(p, d, x, f, z)
    ensures z == y.(writer := Writer(WantMeta, true, [sid], {sid}, map[sid := e.clock]))
    ensures f.metas == e.metas && f.log == e.log && f.clock == e.clock + 1 && f.locks == map[sid := p] && f.metaLock == e.metaLock
  {
    var f0, z0 := SoloLock(p, d, x, e, y, sid);
    f := NextDisk(f0, p, z0, WriteTurns);
    assert map[][sid := e.clock] == map[sid := e.clock];
    var z1 := y.(writer := Writer(WritingTurns(1), true, [sid], {sid}, map[sid := e.clock]));
    Takes(p, d, x, f0, z0, WriteTurns, f, z1);
    z := y.(writer := Writer(WantMeta, true, [sid], {sid}, map[sid := e.clock]));
    assert sid in z1.writer.done;
    Takes(p, d, x, f, z1, EndTurns, f, z);
  }

  /** and commits its meta entry, up to an equal comparison. */
  lemma SoloMeta(p: Pid, d: Disk, x: Proc, e: Disk, y: Proc, sid: Sid) returns (f: Disk, z: Proc)
    requires Reaches(p, d, x, e, y) && y.writer == NoBatch && e.locks == map[] && e.metaLock == None
    requires e.metas == y.sessions
    ensures Reaches(p, d, x, f, z)
    ensures f.metas == e.metas[sid := e.clock] && f.clock == e.clock + 2 && |f.log| == |e.log| + 1
    ensures z == y.(writer := Writer(Compared(true, f.metas), true, [sid], {sid}, map[sid := e.clock]))
    ensures f.locks == map[sid := p] && f.metaLock == Some(p)
  {
    var z1;
    f, z1 := SoloRename(p, d, x, e, y, sid);
    MergeOne(e.metas, sid, e.clock);
    z := y.(writer := Writer(Compared(true, f.metas), true, [sid], {sid}, map[sid := e.clock]));
    Takes(p, d, x, f, z1, Compare, f, z);
  }

  lemma MergeOne(m: Metas, sid: Sid, ver: Ver)
    ensures Merge(m, MetaDelta(map[sid := ver], {})) == m[sid := ver]
  {
  }

  lemma SoloRename(p: Pid, d: Disk, x: Proc, e: Disk, y: Proc, sid: Sid) returns (f: Disk, z: Proc)
    requires Reaches(p, d, x, e, y) && y.writer == NoBatch && e.locks == map[] && e.metaLock == None
    ensures Reaches(p, d, x, f, z)
    ensures f.metas == e.metas[sid := e.clock] && f.clock == e.clock + 2 && |f.log| == |e.log| + 1
    ensures z == y.(writer := Writer(Renamed(f.metas), true, [sid], {sid}, map[sid := e.clock]))
    ensures f.locks == map[sid := p] && f.metaLock == Some(p)
  {
    var f1, z1 := SoloTurns(p, d, x, e, y, sid);
    var z2 := y.(writer := Writer(Merging(e.metas), true, [sid], {sid}, map[sid := e.clock]));
    Takes(p, d, x, f1, z1, ReadMeta, f1, z2);
    f := NextDisk(f1, p, z2, Rename);
    MergeOne(e.metas, sid, e.clock);
    z := y.(writer := Writer(Renamed(f.metas), true, [sid], {sid}, map[sid := e.clock]));
    Takes(p, d, x, f1, z2, Rename, f, z);
  }

  /** From an equal comparison through the bookkeeping */
  lemma SoloBook(p: Pid, d: Disk, x: Proc, e: Disk, y: Proc, sid: Sid, ver: Ver) returns (f: Disk, z: Proc)
    requires Reaches(p, d, x, e, y) && y.writer == Writer(Compared(true, e.metas), true, [sid], {sid}, map[sid := ver])
    ensures Reaches(p, d, x, f, z)
    ensures f == e.(metaLock := None)
    ensures z == y.(writer := Writer(Booked, true, [sid], {sid}, map[sid := ver]), stampMtime := e.mtime, stampHash := e.metas)
  {
    f := e.(metaLock := None);
    z := y.(writer := Writer(Booked, true, [sid], {sid}, map[sid := ver]), stampMtime := e.mtime, stampHash := e.metas);
    Takes(p, d, x, e, y, Book, f, z);
  }

  lemma OneOf(sid: Sid)
    ensures ToSet([sid]) == {sid}
  {
    assert forall x :: x in [sid] <==> x == sid;
  }

  /** and the memory commit, */
  lemma SoloCommit(p: Pid, d: Disk, x: Proc, e: Disk, y: Proc, sid: Sid, ver: Ver) returns (f: Disk, z: Proc)
    requires Reaches(p, d, x, e, y) && y.writer == Writer(Compared(true, e.metas), true, [sid], {sid}, map[sid := ver])
    ensures Reaches(p, d, x, f, z)
    ensures f == e.(metaLock := None) && z.writer == Writer(Releasing, true, [sid], {sid}, map[])
    ensures z.sessions == y.sessions[sid := ver] && z.loaders == y.loaders
    ensures z.stampMtime == e.mtime && z.stampHash == e.metas && z.dropped == y.dropped - {sid}
  {
    var z1;
    f, z1 := SoloBook(p, d, x, e, y, sid, ver);
    OneOf(sid);
    assert map[sid := ver].Keys == {sid};
    assert Merge(y.sessions, MetaDelta(map[sid := ver], {})) == y.sessions[sid := ver];
    z := NextProc(f, p, z1, CommitMemory([sid]));
    Takes(p, d, x, f, z1, CommitMemory([sid]), f, z);
  }

  /** to the end of the batch. */
  lemma SoloFinish(p: Pid, d: Disk, x: Proc, e: Disk, y: Proc, sid: Sid, ver: Ver) returns (f: Disk, z: Proc)
    requires Reaches(p, d, x, e, y) && y.writer == Writer(Compared(true, e.metas), true, [sid], {sid}, map[sid := ver])
    requires e.locks == map[sid := p]
    ensures Reaches(p, d, x, f, z)
    ensures f == e.(locks := map[], metaLock := None) && z.writer == NoBatch
    ensures z.sessions == y.sessions[sid := ver] && z.loaders == y.loaders
    ensures z.stampMtime == e.mtime && z.stampHash == e.metas && z.dropped == y.dropped - {sid}
  {
    var f1, z1 := SoloCommit(p, d, x, e, y, sid, ver);
    f := e.(locks := map[], metaLock := None);
    assert f1.locks - {sid} == map[] && {sid} - {sid} == {};
    var z2 := z1.(writer := Writer(Releasing, true, [sid], {}, map[]));
    Takes(p, d, x, f1, z1, ReleaseId(sid), f, z2);
    z := z1.(writer := NoBatch);
    Takes(p, d, x, f, z2, EndBatch, f, z);
  }

  /** A Load that has read the empty file but not yet swapped. */
  lemma SlowLoad(d: Disk) returns (y: Proc)
    requires d.metas == map[] && d.log == []
    ensures Reaches(0, d, FreshProc, d, y) && y == FreshProc.(loaders := map[7 := Loaded(d.mtime, map[], 0)])
  {
    assert Solo(0, d, FreshProc, [], d, FreshProc);
    var y1 := FreshProc.(loaders := map[7 := Statted(d.mtime)]);
    assert map[][7 := Statted(d.mtime)] == map[7 := Statted(d.mtime)];
    Takes(0, d, FreshProc, d, FreshProc, StatLoad(7), d, y1);
    y := FreshProc.(loaders := map[7 := Loaded(d.mtime, map[], 0)]);
    assert y1.loaders[7 := Loaded(d.mtime, map[], 0)] == y.loaders;
    Takes(0, d, FreshProc, d, y1, ReadLoad(7), d, y);
  }

  /** A first batch while the Load is slow. */
  lemma FirstBatch(d: Disk) returns (f: Disk, z: Proc)
    requires d == Disk(map[], 1, map[], map[], None, 2, map[], [], {}, {})
    ensures Reaches(0, d, FreshProc, f, z)
    ensures z.sessions == f.metas == map["a" := 2] && z.writer == NoBatch && z.dropped == {}
    ensures z.loaders == map[7 := Loaded(d.mtime, map[], 0)]
    ensures f.locks == map[] && f.metaLock == None && f.clock == 4
  {
    var y := SlowLoad(d);
    f, z := SoloMeta(0, d, FreshProc, d, y, "a");
    f, z := SoloFinish(0, d, FreshProc, f, z, "a", 2);
  }

  lemma OneChanged(m: Metas, sid: Sid, ver: Ver)
    requires m == map[sid := ver]
    ensures Changed(m, map[]) == {sid}
  {
    var none: Metas := map[];
    assert m.Keys == {sid} && none.Keys - m.Keys == {};
    forall k ensures k in Changed(m, none) <==> k in m.Keys {
      assert k !in none;
    }
  }

  /** The slow Load swaps in what it read before the first batch. */
  lemma SlowSwap(d: Disk, f: Disk, z: Proc) returns (y: Proc)
    requires Reaches(0, d, FreshProc, f, z) && z.sessions == map["a" := 2]
    requires 7 in z.loaders && z.loaders[7] == Loaded(1, map[], 0)
    ensures Reaches(0, d, FreshProc, f, y) && y.sessions == map[] && y.writer == z.writer && y.dropped == {}
  {
    OneOf("a");
    OneChanged(z.sessions, "a", 2);
    y := NextProc(f, 0, z, SwapLoad(7, ["a"]));
    Takes(0, d, FreshProc, f, z, SwapLoad(7, ["a"]), f, y);
  }

  /** Two single-session batches and one slow Load of one instance alone. */
  lemma StaleLoadRun() returns (d: Disk, f: Disk, z: Proc)
    ensures d == Disk(map[], 1, map[], map[], None, 2, map[], [], {}, {})
    ensures Reaches(0, d, FreshProc, f, z)
    ensures f.metas == map["a" := 2, "b" := 4] && z.sessions == map["b" := 4]
    ensures z.writer == NoBatch && z.dropped == {} && FastPath(f, z)
  {
    d := Disk(map[], 1, map[], map[], None, 2, map[], [], {}, {});
    f, z := FirstBatch(d);
    f, z := SoloMeta(0, d, FreshProc, f, z, "b");
    z := SlowSwap(d, f, z);
    f, z := SoloFinish(0, d, FreshProc, f, z, "b", 4);
    assert {} - {"b"} == {};
  }

  /** Without timely swaps the fast path is not sound: a reachable state in which
      LoadIfChanged skips the reload although memory lost the first session. */
  lemma StaleLoadDefeatsFastPath()
    ensures exists w, steps, v ::
              && Init(w) && Runs(w, steps, v)
              && 0 in v.procs && FastPath(v.disk, v.procs[0]) && !InMemoryMatches(v.disk, v.procs[0])
  {
    var d, f, z := StaleLoadRun();
    var acts :| Solo(0, d, FreshProc, acts, f, z);
    var w, v := World(d, map[0 := FreshProc]), World(f, map[0 := z]);
    assert Init(w);
    SoloIsRun(0, w.procs, d, FreshProc, acts, f, z);
    assert w.procs[0 := z] == v.procs;
    assert "a" in f.metas - (z.dropped - Pending(z).Keys());
    assert "a" !in Merge(z.sessions, Pending(z));
    assert !InMemoryMatches(v.disk, v.procs[0]);
    assert Runs(w, Tagged(0, acts), v) && 0 in v.procs && FastPath(v.disk, v.procs[0]);
  }
}
