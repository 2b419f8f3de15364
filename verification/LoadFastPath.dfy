/** When `LoadIfChanged` may skip the reload (internal/conversations/index.go:218-248
    and 1132-1165). */
module LoadFastPath {
  import opened MetaMerge
  import opened IndexProtocol
  import opened IndexProtocolProofs
  import opened IndexHistory

  /** The fast-path obligation, kept by runs whose swaps are timely. */
  ghost predicate FastOk(d: Disk, x: Proc) {
    && x.dropped !! x.sessions.Keys
    && (x.stampMtime == d.mtime || Trusting(x.writer.phase) ==> InMemoryMatches(d, x))
  }

  ghost predicate WorldFast(w: World) {
    WorldHistory(w) && forall p :: p in w.procs ==> FastOk(w.disk, w.procs[p])
  }

  lemma StableFast(q: Pid, d: Disk, d': Disk, y: Proc)
    requires ProcOk(d, q, y) && FastOk(d, y) && Rely(q, d, d')
    ensures FastOk(d', y)
  {
  }

  /** While a batch is between rename and memory commit, the file already agrees
      with its delta. */
  lemma PendingIsInFile(d: Disk, p: Pid, x: Proc)
    requires ProcOk(d, p, x)
    ensures Merge(d.metas, Pending(x)) == d.metas
  {
  }

  /** Loads and memory agree on every session outside the delta exactly if the
      merged load is the file. */
  lemma {:induction false} MergeIsFile(content: Metas, delta: MetaDelta<Ver>, metas: Metas)
    requires Merge(metas, delta) == metas
    ensures Merge(content, delta) == metas <==> forall sid :: sid !in delta.Keys() ==> SameEntry(content, metas, sid)
  {
    var merged := Merge(content, delta);
    forall sid ensures sid in delta.Keys() ==> SameEntry(merged, metas, sid)
               ensures sid !in delta.Keys() ==> SameEntry(merged, content, sid)
    {
      assert SameEntry(Merge(metas, delta), metas, sid);
    }
    if forall sid :: sid !in delta.Keys() ==> SameEntry(content, metas, sid) {
      SameMaps(merged, metas);
    }
  }

  lemma SameMaps(a: Metas, b: Metas)
    requires forall sid :: SameEntry(a, b, sid)
    ensures a == b
  {
    forall sid ensures (sid in a <==> sid in b) && (sid in a ==> a[sid] == b[sid]) {
      assert SameEntry(a, b, sid);
    }
  }

  lemma {:induction false} DeltaKeys(wr: Writer)
    ensures DeltaOf(wr).Keys() == wr.done.Keys
  {
  }

  /** The exact condition, over what the load saw: merged with the running delta,
      its content is the file if and only if it missed nothing that matters. */
  lemma {:induction false} CurrentIffMissedNothing(d: Disk, p: Pid, x: Proc, ld: Loader)
    requires DiskOk(d) && HistoryOk(d) && ProcOk(d, p, x) && LoaderOk(d, ld) && ld.Loaded? && AfterRename(x.writer.phase)
    ensures Merge(ld.content, DeltaOf(x.writer)) == d.metas <==> MissedNothing(d, ld, x.writer.done.Keys)
  {
    PendingIsInFile(d, p, x);
    DeltaKeys(x.writer);
    MergeIsFile(ld.content, DeltaOf(x.writer), d.metas);
    forall sid ensures SameEntry(ld.content, d.metas, sid) <==>
                       (LastNaming(d.log, sid) >= ld.readAt ==> sid !in ld.content && sid in d.log[LastNaming(d.log, sid)].deletes)
    {
      SameSinceRead(d, ld.content, ld.readAt, sid);
    }
  }

  lemma SwapKeepsFast(d: Disk, p: Pid, x: Proc, a: Action)
    requires DiskOk(d) && HistoryOk(d) && ProcOk(d, p, x) && FastOk(d, x)
    requires a.SwapLoad? && Enabled(d, p, x, a) && TimelySwap(d, x, a)
    ensures FastOk(d, NextProc(d, p, x, a))
  {
    assert LoaderOk(d, x.loaders[a.l]);
    PendingIsInFile(d, p, x);
    if Trusting(x.writer.phase) { CurrentIffMissedNothing(d, p, x, x.loaders[a.l]); }
    SwappedFast(d, p, x, a);
  }

  lemma SwappedFast(d: Disk, p: Pid, x: Proc, a: Action)
    requires a.SwapLoad? && Enabled(d, p, x, a) && Merge(d.metas, Pending(x)) == d.metas
    requires x.loaders[a.l].mtime == d.mtime ==> x.loaders[a.l].content == d.metas
    requires Trusting(x.writer.phase) ==> Merge(x.loaders[a.l].content, DeltaOf(x.writer)) == d.metas
    ensures FastOk(d, NextProc(d, p, x, a))
  {
    var x' := NextProc(d, p, x, a);
    assert x'.writer == x.writer && x'.dropped == {};
    assert d.metas - (x'.dropped - Pending(x').Keys()) == d.metas;
  }

  lemma MergeWithout(m: Metas, e: MetaDelta<Ver>, metas: Metas, dropped: set<Sid>, sid: Sid)
    requires Merge(m, e) == metas - (dropped - e.Keys())
    ensures Merge(m - {sid}, e) == metas - ((dropped + {sid}) - e.Keys())
  {
    var whole, left, right := Merge(m, e), Merge(m - {sid}, e), metas - ((dropped + {sid}) - e.Keys());
    assert left.Keys == whole.Keys - ({sid} - e.Keys());
    assert right.Keys == whole.Keys - ({sid} - e.Keys());
    assert forall k :: k in left ==> left[k] == whole[k];
  }

  lemma DropKeepsFast(d: Disk, p: Pid, x: Proc, a: Action)
    requires FastOk(d, x) && a.FinishError? && Enabled(d, p, x, a)
    ensures FastOk(d, NextReader(d, p, x, a))
  {
    var x' := NextReader(d, p, x, a);
    var sid := x.readers[a.r].sid;
    ReaderFrame(d, p, x, a);
    if sid in x.sessions && x.gens.Of(sid) == x.readers[a.r].phase.g {
      if InMemoryMatches(d, x) { MergeWithout(x.sessions, Pending(x), d.metas, x.dropped, sid); }
    } else {
      assert x'.sessions == x.sessions && x'.dropped == x.dropped;
    }
  }

  lemma CompareKeepsFast(d: Disk, p: Pid, x: Proc)
    requires ProcOk(d, p, x) && FastOk(d, x) && Enabled(d, p, x, Compare)
    ensures FastOk(d, NextProc(d, p, x, Compare))
  {
    var x' := NextProc(d, p, x, Compare);
    if Trusting(x'.writer.phase) {
      assert d.metas - (x'.dropped - Pending(x').Keys()) == d.metas;
    }
  }

  lemma RenameKeepsFast(d: Disk, p: Pid, x: Proc)
    requires ProcOk(d, p, x) && FastOk(d, x) && Enabled(d, p, x, Rename)
    ensures FastOk(NextDisk(d, p, x, Rename), NextProc(d, p, x, Rename))
  {
  }

  lemma CommitKeepsFast(d: Disk, p: Pid, x: Proc, a: Action)
    requires ProcOk(d, p, x) && FastOk(d, x) && a.CommitMemory? && Enabled(d, p, x, a)
    ensures FastOk(d, NextProc(d, p, x, a))
  {
    var x' := NextProc(d, p, x, a);
    assert Merge(x'.sessions, Pending(x')) == x'.sessions;
    assert x'.dropped - Pending(x').Keys() == x.dropped - Pending(x).Keys();
  }

  lemma PendingFrame(d: Disk, p: Pid, x: Proc, a: Action)
    requires Enabled(d, p, x, a)
    requires !a.Compare? && !a.Rename? && !a.CommitMemory? && !a.Crash?
    ensures Pending(NextProc(d, p, x, a)) == Pending(x)
    ensures Trusting(NextProc(d, p, x, a).writer.phase) ==> Trusting(x.writer.phase)
    ensures var d' := NextDisk(d, p, x, a); d'.metas == d.metas && d'.mtime == d.mtime
  {
    WriterOfNextProc(d, p, x, a);
    WriterFrame(d, p, x, a);
    MetasFrame(d, p, x, a);
  }

  lemma WriterFrame(d: Disk, p: Pid, x: Proc, a: Action)
    requires Enabled(d, p, x, a)
    requires !a.Compare? && !a.Rename? && !a.CommitMemory? && !a.Crash?
    ensures var wr' := NextWriter(d, p, x, a);
            && (AfterRename(wr'.phase) <==> AfterRename(x.writer.phase))
            && (AfterRename(wr'.phase) ==> wr'.done == x.writer.done && wr'.upsert == x.writer.upsert)
            && (Trusting(wr'.phase) ==> Trusting(x.writer.phase))
  {
  }

  lemma MetasFrame(d: Disk, p: Pid, x: Proc, a: Action)
    requires Enabled(d, p, x, a) && !a.Rename?
    ensures var d' := NextDisk(d, p, x, a); d'.metas == d.metas && d'.mtime == d.mtime
  {
  }

  lemma QuietKeepsFast(d: Disk, p: Pid, x: Proc, a: Action)
    requires ProcOk(d, p, x) && FastOk(d, x) && Enabled(d, p, x, a)
    requires !a.SwapLoad? && !a.StatLoad? && !a.ReadLoad? && !a.FinishError? && !a.Compare? && !a.Rename?
             && !a.CommitMemory? && !a.Crash? && !a.Book?
    ensures FastOk(NextDisk(d, p, x, a), NextProc(d, p, x, a))
  {
    MemoryFrame(d, p, x, a);
    PendingFrame(d, p, x, a);
    assert NextProc(d, p, x, a).stampMtime == x.stampMtime;
  }

  lemma BookKeepsFast(d: Disk, p: Pid, x: Proc)
    requires ProcOk(d, p, x) && FastOk(d, x) && Enabled(d, p, x, Book)
    ensures FastOk(NextDisk(d, p, x, Book), NextProc(d, p, x, Book))
  {
    PendingFrame(d, p, x, Book);
  }

  lemma LoadKeepsFast(d: Disk, p: Pid, x: Proc, a: Action)
    requires ProcOk(d, p, x) && FastOk(d, x) && Enabled(d, p, x, a) && (a.StatLoad? || a.ReadLoad?)
    ensures FastOk(NextDisk(d, p, x, a), NextProc(d, p, x, a))
  {
  }

  lemma FastKeeps(d: Disk, p: Pid, x: Proc, a: Action)
    requires DiskOk(d) && HistoryOk(d) && ProcOk(d, p, x) && FastOk(d, x) && Enabled(d, p, x, a) && TimelySwap(d, x, a)
    ensures FastOk(NextDisk(d, p, x, a), NextProc(d, p, x, a))
  {
    if a.SwapLoad? {
      SwapKeepsFast(d, p, x, a);
    } else if a.FinishError? {
      ReaderStep(d, p, x, a);
      DropKeepsFast(d, p, x, a);
    } else if a.Compare? {
      CompareKeepsFast(d, p, x);
    } else if a.Rename? {
      RenameKeepsFast(d, p, x);
    } else if a.CommitMemory? {
      CommitKeepsFast(d, p, x, a);
    } else if a.Book? {
      BookKeepsFast(d, p, x);
    } else if a.StatLoad? || a.ReadLoad? {
      LoadKeepsFast(d, p, x, a);
    } else if !a.Crash? {
      QuietKeepsFast(d, p, x, a);
    }
  }

  lemma TimelyStepKeeps(w: World, p: Pid, a: Action)
    requires WorldFast(w) && CanStep(w, p, a) && TimelySwap(w.disk, w.procs[p], a)
    ensures WorldFast(Step(w, p, a))
  {
    StepKeepsHistory(w, p, a);
    AllStayFast(w, p, a);
  }

  lemma AllStayFast(w: World, p: Pid, a: Action)
    requires WorldFast(w) && CanStep(w, p, a) && TimelySwap(w.disk, w.procs[p], a)
    ensures forall q :: q in Step(w, p, a).procs ==> FastOk(Step(w, p, a).disk, Step(w, p, a).procs[q])
  {
    var v := Step(w, p, a);
    FastKeeps(w.disk, p, w.procs[p], a);
    forall q | q in v.procs && q != p ensures FastOk(v.disk, v.procs[q]) {
      BystanderStaysFast(q, w.disk, p, w.procs[p], a, w.procs[q]);
    }
  }

  lemma BystanderStaysFast(q: Pid, d: Disk, p: Pid, x: Proc, a: Action, y: Proc)
    requires DiskOk(d) && ProcOk(d, p, x) && Enabled(d, p, x, a) && q != p && ProcOk(d, q, y) && FastOk(d, y)
    ensures FastOk(NextDisk(d, p, x, a), y)
  {
    GuaranteeOf(q, d, p, x, a);
    StableFast(q, d, NextDisk(d, p, x, a), y);
  }

  lemma {:induction false} TimelyRunKeeps(w: World, steps: seq<(Pid, Action)>, w': World)
    requires WorldFast(w) && RunsTimely(w, steps, w')
    ensures WorldFast(w')
    decreases |steps|
  {
    if steps != [] {
      TimelyStepKeeps(w, steps[0].0, steps[0].1);
      TimelyRunKeeps(Step(w, steps[0].0, steps[0].1), steps[1..], w');
    }
  }

  lemma InitFast(w: World)
    requires Init(w)
    ensures WorldFast(w)
  {
    InitHistory(w);
  }

  /** Fast-path soundness: in every run whose swaps are timely, whenever
      LoadIfChanged would skip the reload, the session map plus the pending
      delta equals the file, except for sessions a failed turns read removed. */
  lemma SkippedReloadIsSound(w: World, steps: seq<(Pid, Action)>, w': World, p: Pid)
    requires Init(w) && RunsTimely(w, steps, w') && p in w'.procs
    requires FastPath(w'.disk, w'.procs[p])
    ensures InMemoryMatches(w'.disk, w'.procs[p])
  {
    InitFast(w);
    TimelyRunKeeps(w, steps, w');
    assert FastOk(w'.disk, w'.procs[p]);
  }

  // ------------------------------------------- conditions a caller can check

  /** A load whose recorded mtime is still the file's has missed nothing. */
  lemma SameMtimeIsTimely(w: World, steps: seq<(Pid, Action)>, w': World, p: Pid, l: nat, order: seq<Sid>)
    requires Init(w) && Runs(w, steps, w') && p in w'.procs
    requires l in w'.procs[p].loaders && w'.procs[p].loaders[l].mtime == w'.disk.mtime
    ensures TimelySwap(w'.disk, w'.procs[p], SwapLoad(l, order))
  {
    InitHistory(w);
    RunKeepsHistory(w, steps, w');
    var x, ld := w'.procs[p], w'.procs[p].loaders[l];
    assert LoaderOk(w'.disk, ld);
    if ld.Loaded? && Trusting(x.writer.phase) {
      PendingIsInFile(w'.disk, p, x);
      CurrentIffMissedNothing(w'.disk, p, x, ld);
    }
  }

  /** Every swap directly follows its own read of the file: a Load whose file
      operations and swap are one step does. */
  ghost predicate LoadsAreAtomic(steps: seq<(Pid, Action)>) {
    forall i :: 0 <= i < |steps| && steps[i].1.SwapLoad? ==> i > 0 && steps[i - 1] == (steps[i].0, ReadLoad(steps[i].1.l))
  }

  /** The load l of instance p holds what the file says now. */
  ghost predicate JustRead(w: World, p: Pid, l: nat) {
    p in w.procs && l in w.procs[p].loaders && w.procs[p].loaders[l].Loaded? && w.procs[p].loaders[l].readAt == |w.disk.log|
  }

  lemma {:induction false} AtomicIsTimely(w: World, steps: seq<(Pid, Action)>, w': World, first: bool, p: Pid, l: nat)
    requires Runs(w, steps, w')
    requires first && steps != [] && steps[0].1.SwapLoad? ==> steps[0] == (p, SwapLoad(l, steps[0].1.order)) && JustRead(w, p, l)
    requires !first && steps != [] ==> !steps[0].1.SwapLoad?
    requires forall i :: 0 < i < |steps| && steps[i].1.SwapLoad? ==> steps[i - 1] == (steps[i].0, ReadLoad(steps[i].1.l))
    ensures RunsTimely(w, steps, w')
    decreases |steps|
  {
    if steps != [] {
      var q, a := steps[0].0, steps[0].1;
      var rest, v := steps[1..], Step(w, q, a);
      assert forall i :: 0 <= i < |rest| ==> rest[i] == steps[i + 1];
      forall i | 0 < i < |rest| && rest[i].1.SwapLoad? ensures rest[i - 1] == (rest[i].0, ReadLoad(rest[i].1.l)) {
        assert steps[i + 1] == rest[i] && steps[i] == rest[i - 1];
      }
      if rest != [] && rest[0].1.SwapLoad? {
        assert steps[1] == rest[0];
        assert a == ReadLoad(rest[0].1.l) && q == rest[0].0;
        ReadIsCurrent(w, q, rest[0].1.l);
        AtomicIsTimely(v, rest, w', true, q, rest[0].1.l);
      } else {
        AtomicIsTimely(v, rest, w', false, 0, 0);
      }
    }
  }

  lemma ReadIsCurrent(w: World, p: Pid, l: nat)
    requires CanStep(w, p, ReadLoad(l))
    ensures JustRead(Step(w, p, ReadLoad(l)), p, l)
  {
  }

  /** With loads that read and swap in one step, the fast path is sound in every
      run of any number of instances. */
  lemma AtomicLoadsAreSound(w: World, steps: seq<(Pid, Action)>, w': World, p: Pid)
    requires Init(w) && Runs(w, steps, w') && LoadsAreAtomic(steps) && p in w'.procs
    requires FastPath(w'.disk, w'.procs[p])
    ensures InMemoryMatches(w'.disk, w'.procs[p])
  {
    AtomicIsTimely(w, steps, w', false, 0, 0);
    SkippedReloadIsSound(w, steps, w', p);
  }
}
