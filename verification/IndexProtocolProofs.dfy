/** What every run of the shared index keeps. The proof is rely/guarantee: each
    action keeps its own instance's invariant and changes the disk only in ways
    (`Rely`) every other instance's invariant survives. */
module IndexProtocolProofs {
  import opened Prelude
  import opened MetaMerge
  import TurnsCache
  import opened IndexProtocol

  // -------------------------------------------------------------- invariants

  ghost predicate DiskOk(d: Disk) {
    && 0 < d.mtime < d.clock
    && (forall sid :: sid in d.turns ==> d.turns[sid].ver < d.clock)
    && Covered(d, d.metas)
    && d.metas == Fold(d.base, d.log)
    && (forall sid :: sid !in d.open && sid !in d.broken ==> Paired(d, sid))
    && d.open <= d.locks.Keys
  }

  /** Every entry of m is no newer than the session's turns file. */
  ghost predicate Covered(d: Disk, m: Metas) {
    forall sid :: sid in m ==> sid in d.turns && m[sid] <= d.turns[sid].ver
  }

  /** What the batch's own progress says, without the disk. */
  ghost predicate WriterShape(wr: Writer) {
    && Increasing(wr.ids)
    && wr.done.Keys <= wr.held
    && (wr.phase.Idle? ==> wr.held == {})
    && (wr.phase.Idle? || wr.phase.Locking? || wr.phase.Releasing? ==> wr.done == map[])
    && (wr.phase.Locking? ==> wr.phase.next <= |wr.ids| && forall sid :: sid in wr.held ==> sid in wr.ids[..wr.phase.next])
    && (wr.phase.WritingTurns? ==> wr.phase.next <= |wr.ids| && forall sid :: sid in wr.done ==> sid in wr.ids[..wr.phase.next])
  }

  /** What the batch may say about the shared files. */
  ghost predicate WriterOwns(d: Disk, p: Pid, wr: Writer) {
    && (forall sid :: sid in wr.held <==> sid in d.locks && d.locks[sid] == p)
    && (d.metaLock == Some(p) <==> HoldsMeta(wr.phase))
    && (forall sid :: sid in wr.done ==> sid in d.turns && d.turns[sid] == TurnFile(wr.done[sid], wr.upsert))
    && (forall sid :: sid in wr.held ==> (sid in d.open <==> BeforeRename(wr.phase) && sid in wr.done))
    && (wr.phase.Merging? ==> wr.phase.read == d.metas)
    && (wr.phase.Renamed? || wr.phase.Compared? ==> wr.phase.merged == d.metas)
    && (AfterRename(wr.phase) ==> forall sid :: sid in wr.done ==>
          if wr.upsert then sid in d.metas && d.metas[sid] == wr.done[sid] else sid !in d.metas)
  }

  /** Generations a reader captured are not ahead of the counter, and a read that
      may still be stored is at least as new as the session map's entry. */
  ghost predicate ReaderOk(x: Proc, rd: Reader) {
    match rd.phase
    case GotGen(g) => g <= x.gens.serial
    case GotError(g) => g <= x.gens.serial
    case GotTurns(g, v) =>
      g <= x.gens.serial && (x.gens.Of(rd.sid) == g && rd.sid in x.sessions ==> x.sessions[rd.sid] <= v)
    case _ => true
  }

  ghost predicate CacheOk(x: Proc) {
    && x.gens.Valid()
    && (forall sid :: sid in x.cache && sid in x.sessions ==> x.sessions[sid] <= x.cache[sid])
    && (forall r :: r in x.readers ==> ReaderOk(x, x.readers[r]))
  }

  ghost predicate LoaderOk(d: Disk, ld: Loader) {
    && ld.mtime < d.clock
    && (ld.Loaded? ==>
          && Covered(d, ld.content) && (ld.mtime == d.mtime ==> ld.content == d.metas)
          && ld.readAt <= |d.log| && ld.content == Fold(d.base, d.log[..ld.readAt]))
  }

  ghost predicate MemoryOk(d: Disk, x: Proc) {
    && x.stampMtime < d.clock
    && Covered(d, x.sessions)
    && (forall l :: l in x.loaders ==> LoaderOk(d, x.loaders[l]))
  }

  ghost predicate ProcOk(d: Disk, p: Pid, x: Proc) {
    WriterShape(x.writer) && WriterOwns(d, p, x.writer) && CacheOk(x) && MemoryOk(d, x)
  }

  ghost predicate WorldOk(w: World) {
    && DiskOk(w.disk)
    && forall p :: p in w.procs ==> ProcOk(w.disk, p, w.procs[p])
  }

  // ------------------------------------------------------------------- rely

  /** Versions and the log only grow, and the meta file changes only with a fresh
      mtime. */
  ghost predicate Forward(d: Disk, d': Disk) {
    && d.clock <= d'.clock
    && (forall sid :: sid in d.turns ==> sid in d'.turns && d.turns[sid].ver <= d'.turns[sid].ver)
    && ((d'.metas == d.metas && d'.mtime == d.mtime) || d'.mtime >= d.clock)
    && d'.base == d.base && d.log <= d'.log
  }

  /** How the disk may change under instance q's feet. */
  ghost predicate Rely(q: Pid, d: Disk, d': Disk) {
    && Forward(d, d')
    && (forall sid :: (sid in d.locks && d.locks[sid] == q) <==> (sid in d'.locks && d'.locks[sid] == q))
    && (forall sid :: sid in d.locks && d.locks[sid] == q ==> SameAt(d, d', sid))
    && (d.metaLock == Some(q) <==> d'.metaLock == Some(q))
    && (d.metaLock == Some(q) ==> d'.metas == d.metas && d'.mtime == d.mtime)
  }

  ghost predicate SameAt(d: Disk, d': Disk, sid: Sid) {
    && (sid in d.turns <==> sid in d'.turns) && (sid in d.turns ==> d'.turns[sid] == d.turns[sid])
    && (sid in d.metas <==> sid in d'.metas) && (sid in d.metas ==> d'.metas[sid] == d.metas[sid])
    && (sid in d.open <==> sid in d'.open)
  }

  lemma StableWriter(q: Pid, d: Disk, d': Disk, y: Proc)
    requires WriterShape(y.writer) && WriterOwns(d, q, y.writer) && Rely(q, d, d')
    ensures WriterOwns(d', q, y.writer)
  {
    var wr := y.writer;
    forall sid | sid in wr.held ensures SameAt(d, d', sid) {
    }
  }

  lemma LoaderForward(d: Disk, d': Disk, ld: Loader)
    requires LoaderOk(d, ld) && Forward(d, d')
    ensures LoaderOk(d', ld)
  {
    if ld.Loaded? { assert d'.log[..ld.readAt] == d.log[..ld.readAt]; }
  }

  lemma StableMemory(q: Pid, d: Disk, d': Disk, y: Proc)
    requires MemoryOk(d, y) && Rely(q, d, d')
    ensures MemoryOk(d', y)
  {
    forall l | l in y.loaders ensures LoaderOk(d', y.loaders[l]) {
      LoaderForward(d, d', y.loaders[l]);
    }
  }

  // ------------------------------------------------------- each action's work

  lemma GuaranteeOfRename(q: Pid, d: Disk, p: Pid, x: Proc)
    requires DiskOk(d) && ProcOk(d, p, x) && Enabled(d, p, x, Rename) && q != p
    ensures Rely(q, d, NextDisk(d, p, x, Rename))
  {
    var d' := NextDisk(d, p, x, Rename);
    forall sid | sid in d.locks && d.locks[sid] == q ensures SameAt(d, d', sid) {
      assert sid !in x.writer.held;
    }
  }

  lemma GuaranteeOfWriteTurns(q: Pid, d: Disk, p: Pid, x: Proc)
    requires DiskOk(d) && ProcOk(d, p, x) && Enabled(d, p, x, WriteTurns) && q != p
    ensures Rely(q, d, NextDisk(d, p, x, WriteTurns))
  {
    assert x.writer.ids[x.writer.phase.next] in x.writer.held;
  }

  lemma GuaranteeOfFailMeta(q: Pid, d: Disk, p: Pid, x: Proc)
    requires DiskOk(d) && ProcOk(d, p, x) && Enabled(d, p, x, FailMeta) && q != p
    ensures Rely(q, d, NextDisk(d, p, x, FailMeta))
  {
    assert forall sid :: sid in x.writer.done.Keys ==> sid in x.writer.held;
  }

  lemma GuaranteeOfCrash(q: Pid, d: Disk, p: Pid, x: Proc)
    requires DiskOk(d) && ProcOk(d, p, x) && q != p
    ensures Rely(q, d, NextDisk(d, p, x, Crash))
  {
    var d' := NextDisk(d, p, x, Crash);
    assert d'.turns == d.turns && d'.metas == d.metas && d'.mtime == d.mtime && d'.clock == d.clock;
    forall sid ensures (sid in d.locks && d.locks[sid] == q) <==> (sid in d'.locks && d'.locks[sid] == q) {
      assert sid in x.writer.held ==> d.locks[sid] == p;
    }
    forall sid | sid in d.locks && d.locks[sid] == q ensures SameAt(d, d', sid) {
      assert sid !in x.writer.held;
    }
  }

  lemma GuaranteeOfLocking(q: Pid, d: Disk, p: Pid, x: Proc, a: Action)
    requires DiskOk(d) && ProcOk(d, p, x) && Enabled(d, p, x, a) && q != p && (a.LockId? || a.ReleaseId?)
    ensures Rely(q, d, NextDisk(d, p, x, a))
  {
    if a.ReleaseId? { assert a.sid in x.writer.held; }
  }

  lemma GuaranteeOfMetaLock(q: Pid, d: Disk, p: Pid, x: Proc, a: Action)
    requires DiskOk(d) && ProcOk(d, p, x) && Enabled(d, p, x, a) && q != p && (a.LockMeta? || a.Book?)
    ensures Rely(q, d, NextDisk(d, p, x, a))
  {
  }

  predicate TouchesDisk(a: Action) {
    a.LockId? || a.WriteTurns? || a.LockMeta? || a.FailMeta? || a.Rename? || a.Book? || a.ReleaseId? || a.Crash?
  }

  lemma DiskUntouched(d: Disk, p: Pid, x: Proc, a: Action)
    requires Enabled(d, p, x, a) && !TouchesDisk(a)
    ensures NextDisk(d, p, x, a) == d
  {
  }

  lemma GuaranteeOf(q: Pid, d: Disk, p: Pid, x: Proc, a: Action)
    requires DiskOk(d) && ProcOk(d, p, x) && Enabled(d, p, x, a) && q != p
    ensures Rely(q, d, NextDisk(d, p, x, a))
  {
    if !TouchesDisk(a) {
      DiskUntouched(d, p, x, a);
    } else if a.Rename? {
      GuaranteeOfRename(q, d, p, x);
    } else if a.WriteTurns? {
      GuaranteeOfWriteTurns(q, d, p, x);
    } else if a.FailMeta? {
      GuaranteeOfFailMeta(q, d, p, x);
    } else if a.Crash? {
      GuaranteeOfCrash(q, d, p, x);
    } else if a.LockMeta? || a.Book? {
      GuaranteeOfMetaLock(q, d, p, x, a);
    } else {
      GuaranteeOfLocking(q, d, p, x, a);
    }
  }

  lemma DiskKeeps(d: Disk, p: Pid, x: Proc, a: Action)
    requires DiskOk(d) && ProcOk(d, p, x) && Enabled(d, p, x, a)
    ensures DiskOk(NextDisk(d, p, x, a))
  {
    if !TouchesDisk(a) {
      DiskUntouched(d, p, x, a);
    } else if a.Rename? {
      RenameKeepsDisk(d, p, x);
    } else if a.WriteTurns? {
      WriteTurnsKeepsDisk(d, p, x);
    } else if a.FailMeta? || a.Crash? {
      FailureKeepsDisk(d, p, x, a);
    } else {
      LockingKeepsDisk(d, p, x, a);
    }
  }

  lemma WriteTurnsKeepsDisk(d: Disk, p: Pid, x: Proc)
    requires DiskOk(d) && ProcOk(d, p, x) && Enabled(d, p, x, WriteTurns)
    ensures DiskOk(NextDisk(d, p, x, WriteTurns))
  {
    var d' := NextDisk(d, p, x, WriteTurns);
    forall sid | sid !in d'.open && sid !in d'.broken ensures Paired(d', sid) {
      assert Paired(d, sid);
    }
  }

  lemma FailureKeepsDisk(d: Disk, p: Pid, x: Proc, a: Action)
    requires DiskOk(d) && ProcOk(d, p, x) && Enabled(d, p, x, a) && (a.FailMeta? || a.Crash?)
    ensures DiskOk(NextDisk(d, p, x, a))
  {
    var d' := NextDisk(d, p, x, a);
    forall sid | sid !in d'.open && sid !in d'.broken ensures Paired(d', sid) {
      assert Paired(d, sid);
    }
  }

  lemma LockingKeepsDisk(d: Disk, p: Pid, x: Proc, a: Action)
    requires DiskOk(d) && ProcOk(d, p, x) && Enabled(d, p, x, a)
    requires a.LockId? || a.LockMeta? || a.Book? || a.ReleaseId?
    ensures DiskOk(NextDisk(d, p, x, a))
  {
    var d' := NextDisk(d, p, x, a);
    if a.ReleaseId? { assert a.sid !in d.open; }
    forall sid | sid !in d'.open && sid !in d'.broken ensures Paired(d', sid) {
      assert Paired(d, sid);
    }
  }

  lemma RenameKeepsDisk(d: Disk, p: Pid, x: Proc)
    requires DiskOk(d) && ProcOk(d, p, x) && Enabled(d, p, x, Rename)
    ensures DiskOk(NextDisk(d, p, x, Rename))
  {
    var d' := NextDisk(d, p, x, Rename);
    LogGrows(d.base, d.log, DeltaOf(x.writer));
    forall sid ensures sid in d'.metas ==> sid in d'.turns && d'.metas[sid] <= d'.turns[sid].ver
               ensures sid !in d'.open && sid !in d'.broken ==> Paired(d', sid)
    {
      RenamedEntry(d, p, x, sid);
    }
  }

  lemma LogGrows(base: Metas, log: seq<MetaDelta<Ver>>, delta: MetaDelta<Ver>)
    ensures Fold(base, log + [delta]) == Merge(Fold(base, log), delta)
  {
    assert (log + [delta])[..|log|] == log;
  }

  lemma RenamedEntry(d: Disk, p: Pid, x: Proc, sid: Sid)
    requires DiskOk(d) && ProcOk(d, p, x) && Enabled(d, p, x, Rename)
    ensures var d' := NextDisk(d, p, x, Rename);
            && (sid in d'.metas ==> sid in d'.turns && d'.metas[sid] <= d'.turns[sid].ver)
            && (sid !in d'.open && sid !in d'.broken ==> Paired(d', sid))
  {
    var d', done, metas := NextDisk(d, p, x, Rename), x.writer.done, Merge(d.metas, DeltaOf(x.writer));
    assert d'.metas == metas && d'.turns == d.turns;
    if sid in done {
      assert d.turns[sid] == TurnFile(done[sid], x.writer.upsert);
      assert if x.writer.upsert then sid in metas && metas[sid] == done[sid] else sid !in metas;
    } else {
      assert (sid in metas <==> sid in d.metas) && (sid in metas ==> metas[sid] == d.metas[sid]);
      assert sid !in d.open && sid !in d.broken ==> Paired(d, sid);
    }
  }

  lemma WriterShapeKeeps(d: Disk, p: Pid, x: Proc, a: Action)
    requires WriterShape(x.writer) && Enabled(d, p, x, a)
    ensures WriterShape(NextWriter(d, p, x, a))
  {
    var wr := x.writer;
    match a
    case LockId => TakeOneMore(wr.ids, wr.phase.next);
    case SkipId => TakeOneMore(wr.ids, wr.phase.next);
    case WriteTurns => TakeOneMore(wr.ids, wr.phase.next);
    case SkipTurns => TakeOneMore(wr.ids, wr.phase.next);
    case _ =>
  }

  lemma WriteTurnsKeepsOwns(d: Disk, p: Pid, x: Proc)
    requires WriterShape(x.writer) && WriterOwns(d, p, x.writer) && Enabled(d, p, x, WriteTurns)
    ensures WriterOwns(NextDisk(d, p, x, WriteTurns), p, NextWriter(d, p, x, WriteTurns))
  {
  }

  lemma RenameKeepsOwns(d: Disk, p: Pid, x: Proc)
    requires WriterShape(x.writer) && WriterOwns(d, p, x.writer) && Enabled(d, p, x, Rename)
    ensures WriterOwns(NextDisk(d, p, x, Rename), p, NextWriter(d, p, x, Rename))
  {
  }

  lemma LockingKeepsOwns(d: Disk, p: Pid, x: Proc, a: Action)
    requires DiskOk(d) && WriterShape(x.writer) && WriterOwns(d, p, x.writer) && Enabled(d, p, x, a)
    requires a.LockId? || a.LockMeta? || a.Book? || a.ReleaseId?
    ensures WriterOwns(NextDisk(d, p, x, a), p, NextWriter(d, p, x, a))
  {
    if a.LockId? { assert x.writer.ids[x.writer.phase.next] !in d.open; }
  }

  lemma LeavingKeepsOwns(d: Disk, p: Pid, x: Proc, a: Action)
    requires DiskOk(d) && WriterShape(x.writer) && WriterOwns(d, p, x.writer) && Enabled(d, p, x, a)
    requires a.FailMeta? || a.Crash?
    ensures WriterOwns(NextDisk(d, p, x, a), p, NextWriter(d, p, x, a))
  {
  }

  lemma QuietKeepsOwns(d: Disk, p: Pid, x: Proc, a: Action)
    requires WriterShape(x.writer) && WriterOwns(d, p, x.writer) && Enabled(d, p, x, a) && !TouchesDisk(a)
    ensures WriterOwns(d, p, NextWriter(d, p, x, a))
  {
  }

  lemma WriterOwnsKeeps(d: Disk, p: Pid, x: Proc, a: Action)
    requires DiskOk(d) && WriterShape(x.writer) && WriterOwns(d, p, x.writer) && Enabled(d, p, x, a)
    ensures WriterOwns(NextDisk(d, p, x, a), p, NextWriter(d, p, x, a))
  {
    if !TouchesDisk(a) {
      DiskUntouched(d, p, x, a);
      QuietKeepsOwns(d, p, x, a);
    } else if a.WriteTurns? {
      WriteTurnsKeepsOwns(d, p, x);
    } else if a.Rename? {
      RenameKeepsOwns(d, p, x);
    } else if a.FailMeta? || a.Crash? {
      LeavingKeepsOwns(d, p, x, a);
    } else {
      LockingKeepsOwns(d, p, x, a);
    }
  }

  lemma TakeOneMore(ids: seq<Sid>, n: nat)
    requires n < |ids|
    ensures ids[..n + 1] == ids[..n] + [ids[n]]
  {
  }

  lemma {:induction false} BumpEachEffect(g: TurnsCache.Gens, order: seq<Sid>, sid: Sid)
    requires g.Valid()
    ensures BumpEach(g, order).Valid() && BumpEach(g, order).serial >= g.serial
    ensures if sid in order then BumpEach(g, order).Of(sid) > g.serial else BumpEach(g, order).Of(sid) == g.Of(sid)
  {
    if order != [] { BumpEachEffect(g, order[..|order| - 1], sid); }
  }

  lemma CommitKeepsCache(d: Disk, p: Pid, x: Proc, order: seq<Sid>)
    requires ProcOk(d, p, x) && Enabled(d, p, x, CommitMemory(order))
    ensures CacheOk(NextProc(d, p, x, CommitMemory(order)))
  {
    var x' := NextProc(d, p, x, CommitMemory(order));
    BumpEachEffect(x.gens, order, "");
    forall r | r in x'.readers ensures ReaderOk(x', x'.readers[r]) {
      assert ReaderOk(x, x.readers[r]);
      BumpEachEffect(x.gens, order, x.readers[r].sid);
    }
  }

  lemma ReaderStep(d: Disk, p: Pid, x: Proc, a: Action)
    requires Enabled(d, p, x, a) && ReaderAction(a)
    ensures NextProc(d, p, x, a) == NextReader(d, p, x, a)
  {
  }

  ghost predicate OnlyReaders(x: Proc, x': Proc) {
    x'.loaders == x.loaders && x'.stampMtime == x.stampMtime && x'.writer == x.writer && x'.gens == x.gens
  }

  /** Readers change nothing but themselves, except that a current read may be
      cached and a failed one may drop its session. */
  lemma ReaderFrame(d: Disk, p: Pid, x: Proc, a: Action)
    requires Enabled(d, p, x, a) && ReaderAction(a)
    ensures var x' := NextReader(d, p, x, a);
            && OnlyReaders(x, x')
            && (a.FinishError? || (x'.sessions == x.sessions && x'.dropped == x.dropped))
            && (a.FinishRead? || x'.cache == x.cache)
  {
    if a.FinishRead? {
      FinishReadFrame(d, p, x, a);
    } else if a.FinishError? {
      FinishErrorFrame(d, p, x, a);
    } else {
      OtherReadFrame(d, p, x, a);
    }
  }

  lemma FinishReadFrame(d: Disk, p: Pid, x: Proc, a: Action)
    requires Enabled(d, p, x, a) && a.FinishRead?
    ensures var x' := NextReader(d, p, x, a);
            OnlyReaders(x, x') && x'.sessions == x.sessions && x'.dropped == x.dropped
  {
  }

  lemma FinishErrorFrame(d: Disk, p: Pid, x: Proc, a: Action)
    requires Enabled(d, p, x, a) && a.FinishError?
    ensures var x' := NextReader(d, p, x, a);
            OnlyReaders(x, x') && x'.cache == x.cache
  {
  }

  lemma OtherReadFrame(d: Disk, p: Pid, x: Proc, a: Action)
    requires Enabled(d, p, x, a) && ReaderAction(a) && !a.FinishRead? && !a.FinishError?
    ensures var x' := NextReader(d, p, x, a);
            OnlyReaders(x, x') && x'.sessions == x.sessions && x'.dropped == x.dropped && x'.cache == x.cache
  {
    match a
    case BeginRead(_, _) =>
    case CheckIndexed(_) =>
    case LookCache(_) =>
    case CaptureGen(_) =>
    case ReadTurns(_) =>
    case ReadFails(_) =>
  }

  lemma ReadersFrame(d: Disk, p: Pid, x: Proc, a: Action)
    requires Enabled(d, p, x, a) && ReaderAction(a)
    ensures var x' := NextReader(d, p, x, a);
            forall s :: s in x'.readers && s != a.r ==> s in x.readers && x'.readers[s] == x.readers[s]
  {
  }

  /** A read that is still current when it is stored is new enough. */
  lemma ReadKeepsCache(d: Disk, p: Pid, x: Proc, a: Action, r: nat)
    requires ProcOk(d, p, x) && Enabled(d, p, x, a)
    requires a == ReadTurns(r) || a == ReadFails(r) || a == CaptureGen(r)
    ensures CacheOk(NextReader(d, p, x, a))
  {
    ReaderFrame(d, p, x, a);
    ReadersFrame(d, p, x, a);
    assert ReaderOk(x, x.readers[r]);
    OtherReaders(x, NextReader(d, p, x, a), r);
  }

  lemma FinishKeepsCache(d: Disk, p: Pid, x: Proc, r: nat, insert: bool)
    requires CacheOk(x) && Enabled(d, p, x, FinishRead(r, insert))
    ensures CacheOk(NextReader(d, p, x, FinishRead(r, insert)))
  {
    ReaderFrame(d, p, x, FinishRead(r, insert));
    ReadersFrame(d, p, x, FinishRead(r, insert));
    assert ReaderOk(x, x.readers[r]);
    OtherReaders(x, NextReader(d, p, x, FinishRead(r, insert)), r);
  }

  lemma LookFrame(d: Disk, p: Pid, x: Proc, a: Action)
    requires Enabled(d, p, x, a) && (a.BeginRead? || a.CheckIndexed? || a.LookCache?)
    ensures var x' := NextReader(d, p, x, a);
            a.r in x'.readers ==> x'.readers[a.r].phase.Entered? || x'.readers[a.r].phase.Checked? || x'.readers[a.r].phase.Missed?
  {
  }

  lemma LookKeepsCache(d: Disk, p: Pid, x: Proc, a: Action)
    requires CacheOk(x) && Enabled(d, p, x, a)
    requires a.BeginRead? || a.CheckIndexed? || a.LookCache?
    ensures CacheOk(NextReader(d, p, x, a))
  {
    var x' := NextReader(d, p, x, a);
    ReaderFrame(d, p, x, a);
    ReadersFrame(d, p, x, a);
    LookFrame(d, p, x, a);
    OtherReaders(x, x', a.r);
    FrameCache(x, x', a.r);
  }

  /** Fewer sessions, the same cache and generations, and no obligation left for
      reader r. */
  lemma FrameCache(x: Proc, x': Proc, r: nat)
    requires CacheOk(x) && x'.gens == x.gens && x'.cache == x.cache
    requires forall sid :: sid in x'.sessions ==> sid in x.sessions && x'.sessions[sid] == x.sessions[sid]
    requires forall s :: s in x'.readers && s != r ==> ReaderOk(x', x'.readers[s])
    requires r in x'.readers ==> x'.readers[r].phase.Entered? || x'.readers[r].phase.Checked? || x'.readers[r].phase.Missed?
    ensures CacheOk(x')
  {
  }

  lemma DropKeepsCache(d: Disk, p: Pid, x: Proc, a: Action)
    requires CacheOk(x) && Enabled(d, p, x, a) && a.FinishError?
    ensures CacheOk(NextReader(d, p, x, a))
  {
    var x' := NextReader(d, p, x, a);
    DropFrame(d, p, x, a);
    ReaderFrame(d, p, x, a);
    ReadersFrame(d, p, x, a);
    OtherReaders(x, x', a.r);
    FrameCache(x, x', a.r);
  }

  lemma DropFrame(d: Disk, p: Pid, x: Proc, a: Action)
    requires Enabled(d, p, x, a) && a.FinishError?
    ensures var x' := NextReader(d, p, x, a);
            && (forall sid :: sid in x'.sessions ==> sid in x.sessions && x'.sessions[sid] == x.sessions[sid])
            && (a.r in x'.readers ==> x'.readers[a.r].phase.Entered?)
  {
  }

  lemma CacheKeeps(d: Disk, p: Pid, x: Proc, a: Action)
    requires DiskOk(d) && ProcOk(d, p, x) && Enabled(d, p, x, a)
    ensures CacheOk(NextProc(d, p, x, a))
  {
    if ReaderAction(a) {
      ReaderStep(d, p, x, a);
      ReaderKeepsCache(d, p, x, a);
    } else if a.CommitMemory? {
      CommitKeepsCache(d, p, x, a.order);
    } else if a.SwapLoad? {
      SwapKeepsCache(d, p, x, a.l, a.order);
    } else if !a.Crash? {
      SameReaders(d, p, x, a);
    }
  }

  lemma ReaderKeepsCache(d: Disk, p: Pid, x: Proc, a: Action)
    requires ProcOk(d, p, x) && Enabled(d, p, x, a) && ReaderAction(a)
    ensures CacheOk(NextReader(d, p, x, a))
  {
    if a.BeginRead? || a.CheckIndexed? || a.LookCache? {
      LookKeepsCache(d, p, x, a);
    } else if a.FinishError? {
      DropKeepsCache(d, p, x, a);
    } else if a.FinishRead? {
      FinishKeepsCache(d, p, x, a.r, a.insert);
    } else {
      ReadKeepsCache(d, p, x, a, a.r);
    }
  }

  /** Batch steps other than the memory commit leave cache and readers alone. */
  lemma SameReaders(d: Disk, p: Pid, x: Proc, a: Action)
    requires CacheOk(x) && Enabled(d, p, x, a)
    requires !a.CommitMemory? && !a.SwapLoad? && !a.Crash? && !ReaderAction(a)
    ensures CacheOk(NextProc(d, p, x, a))
  {
    var x' := NextProc(d, p, x, a);
    forall r | r in x'.readers ensures ReaderOk(x', x'.readers[r]) {
      assert ReaderOk(x, x.readers[r]);
    }
  }

  /** Readers other than r keep their obligation when generations do not move and
      the session map does not gain or change entries. */
  lemma OtherReaders(x: Proc, x': Proc, r: nat)
    requires CacheOk(x) && x'.gens == x.gens
    requires forall s :: s in x'.readers && s != r ==> s in x.readers && x'.readers[s] == x.readers[s]
    requires forall sid :: sid in x'.sessions ==> sid in x.sessions && x'.sessions[sid] == x.sessions[sid]
    ensures forall s :: s in x'.readers && s != r ==> ReaderOk(x', x'.readers[s])
  {
    forall s | s in x'.readers && s != r ensures ReaderOk(x', x'.readers[s]) {
      assert ReaderOk(x, x.readers[s]);
    }
  }

  lemma SwapKeepsCache(d: Disk, p: Pid, x: Proc, l: nat, order: seq<Sid>)
    requires DiskOk(d) && ProcOk(d, p, x) && Enabled(d, p, x, SwapLoad(l, order))
    ensures CacheOk(NextProc(d, p, x, SwapLoad(l, order)))
  {
    var x' := NextProc(d, p, x, SwapLoad(l, order));
    var c := x.loaders[l].content;
    BumpEachEffect(x.gens, order, "");
    assert forall sid :: sid in c && sid !in order ==> sid in x.sessions && x.sessions[sid] == c[sid] by {
      forall sid | sid in c && sid !in order ensures sid in x.sessions && x.sessions[sid] == c[sid] {
        assert sid !in Changed(x.sessions, c);
      }
    }
    forall r | r in x'.readers ensures ReaderOk(x', x'.readers[r]) {
      assert ReaderOk(x, x.readers[r]);
      BumpEachEffect(x.gens, order, x.readers[r].sid);
    }
  }

  lemma DiskMovesForward(d: Disk, p: Pid, x: Proc, a: Action)
    requires DiskOk(d) && Enabled(d, p, x, a)
    ensures Forward(d, NextDisk(d, p, x, a))
  {
    if !TouchesDisk(a) { DiskUntouched(d, p, x, a); }
  }

  lemma LoadersKeep(d: Disk, d': Disk, x: Proc, x': Proc)
    requires MemoryOk(d, x) && Forward(d, d')
    requires forall l :: l in x'.loaders ==>
               (l in x.loaders && x'.loaders[l] == x.loaders[l]) || LoaderOk(d', x'.loaders[l])
    ensures forall l :: l in x'.loaders ==> LoaderOk(d', x'.loaders[l])
  {
    forall l | l in x'.loaders ensures LoaderOk(d', x'.loaders[l]) {
      if l in x.loaders { LoaderForward(d, d', x.loaders[l]); }
    }
  }

  lemma SwapKeepsMemory(d: Disk, p: Pid, x: Proc, l: nat, order: seq<Sid>)
    requires DiskOk(d) && ProcOk(d, p, x) && Enabled(d, p, x, SwapLoad(l, order))
    ensures MemoryOk(d, NextProc(d, p, x, SwapLoad(l, order)))
  {
    var x' := NextProc(d, p, x, SwapLoad(l, order));
    assert LoaderOk(d, x.loaders[l]);
    LoadersKeep(d, d, x, x');
  }

  lemma LoadKeepsMemory(d: Disk, p: Pid, x: Proc, a: Action)
    requires DiskOk(d) && ProcOk(d, p, x) && Enabled(d, p, x, a) && (a.StatLoad? || a.ReadLoad?)
    ensures MemoryOk(d, NextProc(d, p, x, a))
  {
    if a.ReadLoad? {
      assert LoaderOk(d, x.loaders[a.l]);
      assert d.log[..|d.log|] == d.log;
    }
    LoadersKeep(d, d, x, NextProc(d, p, x, a));
  }

  lemma CommitKeepsMemory(d: Disk, p: Pid, x: Proc, order: seq<Sid>)
    requires DiskOk(d) && ProcOk(d, p, x) && Enabled(d, p, x, CommitMemory(order))
    ensures MemoryOk(d, NextProc(d, p, x, CommitMemory(order)))
  {
    LoadersKeep(d, d, x, NextProc(d, p, x, CommitMemory(order)));
  }

  lemma MemoryKeeps(d: Disk, p: Pid, x: Proc, a: Action)
    requires DiskOk(d) && ProcOk(d, p, x) && Enabled(d, p, x, a) && DiskOk(NextDisk(d, p, x, a))
    ensures MemoryOk(NextDisk(d, p, x, a), NextProc(d, p, x, a))
  {
    if a.SwapLoad? {
      SwapKeepsMemory(d, p, x, a.l, a.order);
    } else if a.StatLoad? || a.ReadLoad? {
      LoadKeepsMemory(d, p, x, a);
    } else if a.CommitMemory? {
      CommitKeepsMemory(d, p, x, a.order);
    } else if !a.Crash? {
      SameLoaders(d, p, x, a);
    }
  }

  lemma MemoryFrame(d: Disk, p: Pid, x: Proc, a: Action)
    requires Enabled(d, p, x, a)
    requires !a.SwapLoad? && !a.StatLoad? && !a.ReadLoad? && !a.CommitMemory? && !a.Crash?
    ensures var x' := NextProc(d, p, x, a);
            && x'.loaders == x.loaders && (x'.stampMtime == x.stampMtime || x'.stampMtime == d.mtime)
            && (a.FinishError? || (x'.sessions == x.sessions && x'.dropped == x.dropped))
            && forall sid :: sid in x'.sessions ==> sid in x.sessions && x'.sessions[sid] == x.sessions[sid]
  {
    if ReaderAction(a) {
      ReaderStep(d, p, x, a);
      ReaderFrame(d, p, x, a);
      if a.FinishError? { DropFrame(d, p, x, a); }
    } else {
      BatchFrame(d, p, x, a);
    }
  }

  lemma BatchFrame(d: Disk, p: Pid, x: Proc, a: Action)
    requires Enabled(d, p, x, a) && !ReaderAction(a)
    requires !a.SwapLoad? && !a.StatLoad? && !a.ReadLoad? && !a.CommitMemory? && !a.Crash?
    ensures var x' := NextProc(d, p, x, a);
            && x'.loaders == x.loaders && x'.sessions == x.sessions && x'.dropped == x.dropped
            && (x'.stampMtime == x.stampMtime || x'.stampMtime == d.mtime)
  {
  }

  lemma SameLoaders(d: Disk, p: Pid, x: Proc, a: Action)
    requires DiskOk(d) && MemoryOk(d, x) && Enabled(d, p, x, a) && DiskOk(NextDisk(d, p, x, a))
    requires !a.SwapLoad? && !a.StatLoad? && !a.ReadLoad? && !a.CommitMemory? && !a.Crash?
    ensures MemoryOk(NextDisk(d, p, x, a), NextProc(d, p, x, a))
  {
    var d', x' := NextDisk(d, p, x, a), NextProc(d, p, x, a);
    DiskMovesForward(d, p, x, a);
    MemoryFrame(d, p, x, a);
    SameLoadersValue(d, d', x, x');
  }

  lemma SameLoadersValue(d: Disk, d': Disk, x: Proc, x': Proc)
    requires DiskOk(d) && DiskOk(d') && MemoryOk(d, x) && Forward(d, d')
    requires x'.loaders == x.loaders && (x'.stampMtime == x.stampMtime || x'.stampMtime == d.mtime)
    requires forall sid :: sid in x'.sessions ==> sid in x.sessions && x'.sessions[sid] == x.sessions[sid]
    ensures MemoryOk(d', x')
  {
    LoadersKeep(d, d', x, x');
  }

  lemma ActorKeeps(d: Disk, p: Pid, x: Proc, a: Action)
    requires DiskOk(d) && ProcOk(d, p, x) && Enabled(d, p, x, a)
    ensures DiskOk(NextDisk(d, p, x, a)) && ProcOk(NextDisk(d, p, x, a), p, NextProc(d, p, x, a))
  {
    DiskKeeps(d, p, x, a);
    WriterShapeKeeps(d, p, x, a);
    WriterOwnsKeeps(d, p, x, a);
    CacheKeeps(d, p, x, a);
    MemoryKeeps(d, p, x, a);
    WriterOfNextProc(d, p, x, a);
  }

  lemma WriterOfNextProc(d: Disk, p: Pid, x: Proc, a: Action)
    requires Enabled(d, p, x, a)
    ensures NextProc(d, p, x, a).writer == NextWriter(d, p, x, a)
  {
    if ReaderAction(a) {
      ReaderStep(d, p, x, a);
      ReaderFrame(d, p, x, a);
    } else {
      WriterOfBatchStep(d, p, x, a);
    }
  }

  lemma WriterOfBatchStep(d: Disk, p: Pid, x: Proc, a: Action)
    requires Enabled(d, p, x, a) && !ReaderAction(a)
    ensures NextProc(d, p, x, a).writer == NextWriter(d, p, x, a)
  {
  }

  lemma BystanderKeeps(q: Pid, d: Disk, p: Pid, x: Proc, a: Action, y: Proc)
    requires DiskOk(d) && ProcOk(d, p, x) && Enabled(d, p, x, a) && q != p && ProcOk(d, q, y)
    ensures ProcOk(NextDisk(d, p, x, a), q, y)
  {
    GuaranteeOf(q, d, p, x, a);
    StableWriter(q, d, NextDisk(d, p, x, a), y);
    StableMemory(q, d, NextDisk(d, p, x, a), y);
  }

  /** One action keeps every invariant of the whole system. */
  lemma StepKeeps(w: World, p: Pid, a: Action)
    requires WorldOk(w) && CanStep(w, p, a)
    ensures WorldOk(Step(w, p, a))
  {
    var w' := Step(w, p, a);
    ActorKeeps(w.disk, p, w.procs[p], a);
    forall q | q in w'.procs ensures ProcOk(w'.disk, q, w'.procs[q]) {
      if q != p { BystanderKeeps(q, w.disk, p, w.procs[p], a, w.procs[q]); }
    }
  }

  lemma InitOk(w: World)
    requires Init(w)
    ensures WorldOk(w)
  {
    var d := w.disk;
    forall sid | sid in d.metas ensures sid in d.turns && d.metas[sid] <= d.turns[sid].ver {
      assert Paired(d, sid);
    }
  }

  lemma {:induction false} RunKeeps(w: World, steps: seq<(Pid, Action)>, w': World)
    requires WorldOk(w) && Runs(w, steps, w')
    ensures WorldOk(w')
    decreases |steps|
  {
    if steps != [] {
      StepKeeps(w, steps[0].0, steps[0].1);
      RunKeeps(Step(w, steps[0].0, steps[0].1), steps[1..], w');
    }
  }

  // ---------------------------------------------------------------- theorems

  /** In every reachable state the meta file is the fold of the committed deltas
      in meta-lock order, and each session's entry is what the last delta naming
      it said: no lost update and no resurrection. */
  lemma NoLostUpdate(w: World, steps: seq<(Pid, Action)>, w': World, sid: Sid)
    requires Init(w) && Runs(w, steps, w')
    ensures w'.disk.metas == Fold(w'.disk.base, w'.disk.log)
    ensures var i := LastNaming(w'.disk.log, sid);
            if i < 0 then
              && (sid in w'.disk.metas <==> sid in w'.disk.base)
              && (sid in w'.disk.base ==> w'.disk.metas[sid] == w'.disk.base[sid])
            else if sid in w'.disk.log[i].deletes then sid !in w'.disk.metas
            else sid in w'.disk.metas && w'.disk.metas[sid] == w'.disk.log[i].upserts[sid]
  {
    InitOk(w);
    RunKeeps(w, steps, w');
    LastDeltaDecides(w'.disk.base, w'.disk.log, sid);
  }

  /** Whenever no batch holds a session's lock and no meta commit naming it has
      failed since its last successful one, its turns file and meta entry were
      written by the same call and exist together. */
  lemma TurnsAndMetaStayPaired(w: World, steps: seq<(Pid, Action)>, w': World, sid: Sid)
    requires Init(w) && Runs(w, steps, w')
    requires sid !in w'.disk.locks && sid !in w'.disk.broken
    ensures Paired(w'.disk, sid)
  {
    InitOk(w);
    RunKeeps(w, steps, w');
  }

  /** In every reachable state of every instance, turns cached for an indexed
      session are never older than the session map's entry. */
  lemma CachedTurnsAreNeverOlder(w: World, steps: seq<(Pid, Action)>, w': World, p: Pid, sid: Sid)
    requires Init(w) && Runs(w, steps, w') && p in w'.procs
    requires sid in w'.procs[p].cache && sid in w'.procs[p].sessions
    ensures w'.procs[p].sessions[sid] <= w'.procs[p].cache[sid]
  {
    InitOk(w);
    RunKeeps(w, steps, w');
    assert CacheOk(w'.procs[p]);
  }

  // ------------------------------------------------------------ wait-for graph

  predicate LockLess(a: Lock, b: Lock) {
    match (a, b)
    case (OfSession(s), OfSession(t)) => Less(s, t)
    case (OfSession(_), OfMeta) => true
    case _ => false
  }

  lemma LockLessTransitive(a: Lock, b: Lock, c: Lock)
    requires LockLess(a, b) && LockLess(b, c)
    ensures LockLess(a, c)
  {
    if c.OfSession? { LessTransitive(a.sid, b.sid, c.sid); }
  }

  /** A waiting batch wants a lock above every lock it owns. */
  lemma WantedIsAboveOwned(d: Disk, p: Pid, x: Proc, k: Lock)
    requires ProcOk(d, p, x) && Wanted(x).Some? && Owns(d, p, k)
    ensures LockLess(k, Wanted(x).value)
  {
    var wr := x.writer;
    if wr.phase.Locking? && k.OfSession? {
      assert k.sid in wr.held;
      var i :| 0 <= i < wr.phase.next && wr.ids[..wr.phase.next][i] == k.sid;
      assert Less(wr.ids[i], wr.ids[wr.phase.next]);
    }
  }

  /** Following waits only climbs the lock order. */
  lemma {:induction false} WaitsClimb(w: World, chain: seq<Pid>, n: nat)
    requires WorldOk(w) && 1 <= n < |chain|
    requires forall i :: 0 <= i < |chain| - 1 ==> WaitsFor(w, chain[i], chain[i + 1])
    requires chain[n] in w.procs && Wanted(w.procs[chain[n]]).Some?
    ensures WaitsFor(w, chain[0], chain[1])
    ensures LockLess(Wanted(w.procs[chain[0]]).value, Wanted(w.procs[chain[n]]).value)
  {
    assert WaitsFor(w, chain[n - 1], chain[n]);
    var held := Wanted(w.procs[chain[n - 1]]).value;
    WantedIsAboveOwned(w.disk, chain[n], w.procs[chain[n]], held);
    if n > 1 {
      WaitsClimb(w, chain, n - 1);
      LockLessTransitive(Wanted(w.procs[chain[0]]).value, held, Wanted(w.procs[chain[n]]).value);
    }
  }

  /** No circular wait, of any length, in any reachable state. */
  lemma NoCircularWait(w: World, steps: seq<(Pid, Action)>, w': World, chain: seq<Pid>)
    requires Init(w) && Runs(w, steps, w')
    requires |chain| >= 2 && chain[0] == chain[|chain| - 1]
    ensures exists i :: 0 <= i < |chain| - 1 && !WaitsFor(w', chain[i], chain[i + 1])
  {
    InitOk(w);
    RunKeeps(w, steps, w');
    if forall i :: 0 <= i < |chain| - 1 ==> WaitsFor(w', chain[i], chain[i + 1]) {
      assert WaitsFor(w', chain[0], chain[1]);
      WaitsClimb(w', chain, |chain| - 1);
      var k := Wanted(w'.procs[chain[0]]).value;
      if k.OfSession? { LessIrreflexive(k.sid); }
      assert false;
    }
  }
}
