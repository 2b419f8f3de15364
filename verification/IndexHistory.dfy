/** The versions committed for one session never repeat, in any run. */
module IndexHistory {
  import opened MetaMerge
  import opened IndexProtocol
  import opened IndexProtocolProofs

  /** Every version ever committed for a session is no newer than its turns file,
      and no two commits of a session carry the same version. */
  ghost predicate HistoryOk(d: Disk) {
    && Covered(d, d.base)
    && (forall i :: 0 <= i < |d.log| ==> Covered(d, d.log[i].upserts))
    && (forall i, j :: 0 <= i < j < |d.log| ==> Apart(d.log[i].upserts, d.log[j].upserts))
    && (forall j :: 0 <= j < |d.log| ==> Apart(d.base, d.log[j].upserts))
  }

  ghost predicate Apart(a: Metas, b: Metas) { forall sid :: sid in a && sid in b ==> a[sid] != b[sid] }

  /** What the batch is about to commit is newer than every version of the same
      session committed so far. */
  ghost predicate WriterFresh(d: Disk, wr: Writer) {
    BeforeRename(wr.phase) ==>
      && Newer(wr.done, d.base)
      && forall i :: 0 <= i < |d.log| ==> Newer(wr.done, d.log[i].upserts)
  }

  ghost predicate Newer(a: Metas, b: Metas) { forall sid :: sid in a && sid in b ==> b[sid] < a[sid] }

  ghost predicate WorldHistory(w: World) {
    WorldOk(w) && HistoryOk(w.disk) && forall p :: p in w.procs ==> WriterFresh(w.disk, w.procs[p].writer)
  }

  // --------------------------------------------------------------- each action

  lemma HistoryForward(d: Disk, d': Disk)
    requires HistoryOk(d) && Forward(d, d') && d'.log == d.log
    ensures HistoryOk(d')
  {
    forall i | 0 <= i < |d'.log| ensures Covered(d', d'.log[i].upserts) {
      assert Covered(d, d.log[i].upserts);
    }
  }

  lemma RenameKeepsHistory(d: Disk, p: Pid, x: Proc)
    requires DiskOk(d) && ProcOk(d, p, x) && HistoryOk(d) && WriterFresh(d, x.writer) && Enabled(d, p, x, Rename)
    ensures HistoryOk(NextDisk(d, p, x, Rename))
  {
    var d', delta := NextDisk(d, p, x, Rename), DeltaOf(x.writer);
    assert d'.turns == d.turns && d'.base == d.base && d'.log == d.log + [delta];
    assert delta.upserts == map[] || delta.upserts == x.writer.done;
    assert Covered(d', delta.upserts);
    LogMayGrow(d, d', delta);
  }

  lemma {:induction false} LogMayGrow(d: Disk, d': Disk, delta: MetaDelta<Ver>)
    requires HistoryOk(d) && d'.turns == d.turns && d'.base == d.base && d'.log == d.log + [delta]
    requires Covered(d', delta.upserts) && Newer(delta.upserts, d.base)
    requires forall i :: 0 <= i < |d.log| ==> Newer(delta.upserts, d.log[i].upserts)
    ensures HistoryOk(d')
  {
    forall i | 0 <= i < |d'.log| ensures Covered(d', d'.log[i].upserts) && Apart(d'.base, d'.log[i].upserts) {
      if i < |d.log| { assert Covered(d, d.log[i].upserts) && Apart(d.base, d.log[i].upserts); }
    }
    forall i, j | 0 <= i < j < |d'.log| ensures Apart(d'.log[i].upserts, d'.log[j].upserts) {
      if j < |d.log| {
        assert Apart(d.log[i].upserts, d.log[j].upserts);
      } else {
        assert Newer(delta.upserts, d.log[i].upserts);
      }
    }
  }

  lemma LogFrame(d: Disk, p: Pid, x: Proc, a: Action)
    requires Enabled(d, p, x, a) && !a.Rename?
    ensures NextDisk(d, p, x, a).log == d.log
  {
  }

  lemma HistoryKeeps(d: Disk, p: Pid, x: Proc, a: Action)
    requires DiskOk(d) && ProcOk(d, p, x) && HistoryOk(d) && WriterFresh(d, x.writer) && Enabled(d, p, x, a)
    ensures HistoryOk(NextDisk(d, p, x, a))
  {
    if a.Rename? {
      RenameKeepsHistory(d, p, x);
    } else {
      DiskMovesForward(d, p, x, a);
      LogFrame(d, p, x, a);
      HistoryForward(d, NextDisk(d, p, x, a));
    }
  }

  lemma WriteTurnsKeepsFresh(d: Disk, p: Pid, x: Proc)
    requires DiskOk(d) && HistoryOk(d) && WriterFresh(d, x.writer) && Enabled(d, p, x, WriteTurns)
    ensures WriterFresh(NextDisk(d, p, x, WriteTurns), NextWriter(d, p, x, WriteTurns))
  {
    var sid, done := x.writer.ids[x.writer.phase.next], NextWriter(d, p, x, WriteTurns).done;
    forall i | 0 <= i < |d.log| ensures Newer(done, d.log[i].upserts) {
      assert Covered(d, d.log[i].upserts) && Newer(x.writer.done, d.log[i].upserts);
    }
  }

  lemma DoneFrame(d: Disk, p: Pid, x: Proc, a: Action)
    requires WriterShape(x.writer) && Enabled(d, p, x, a) && !a.WriteTurns?
    ensures var wr' := NextWriter(d, p, x, a);
            BeforeRename(wr'.phase) ==> wr'.done == map[] || (wr'.done == x.writer.done && BeforeRename(x.writer.phase))
  {
  }

  lemma FreshKeeps(d: Disk, p: Pid, x: Proc, a: Action)
    requires DiskOk(d) && WriterShape(x.writer) && HistoryOk(d) && WriterFresh(d, x.writer) && Enabled(d, p, x, a)
    ensures WriterFresh(NextDisk(d, p, x, a), NextWriter(d, p, x, a))
  {
    if a.WriteTurns? {
      WriteTurnsKeepsFresh(d, p, x);
    } else if !a.Rename? {
      DoneFrame(d, p, x, a);
      LogFrame(d, p, x, a);
      DiskMovesForward(d, p, x, a);
    }
  }

  /** A peer's commit names no session this batch holds. */
  lemma BystanderStaysFresh(q: Pid, d: Disk, p: Pid, x: Proc, a: Action, y: Proc)
    requires DiskOk(d) && ProcOk(d, p, x) && Enabled(d, p, x, a) && q != p && ProcOk(d, q, y) && WriterFresh(d, y.writer)
    ensures WriterFresh(NextDisk(d, p, x, a), y.writer)
  {
    if a.Rename? {
      var d' := NextDisk(d, p, x, a);
      forall i | 0 <= i < |d'.log| && BeforeRename(y.writer.phase) ensures Newer(y.writer.done, d'.log[i].upserts) {
        if i < |d.log| {
          assert Newer(y.writer.done, d.log[i].upserts);
        } else {
          assert forall sid :: sid in y.writer.done ==> sid in y.writer.held && sid !in x.writer.held;
        }
      }
    } else {
      LogFrame(d, p, x, a);
      DiskMovesForward(d, p, x, a);
    }
  }

  lemma StepKeepsHistory(w: World, p: Pid, a: Action)
    requires WorldHistory(w) && CanStep(w, p, a)
    ensures WorldHistory(Step(w, p, a))
  {
    StepKeeps(w, p, a);
    HistoryKeeps(w.disk, p, w.procs[p], a);
    AllStayFresh(w, p, a);
  }

  lemma AllStayFresh(w: World, p: Pid, a: Action)
    requires WorldHistory(w) && CanStep(w, p, a)
    ensures forall q :: q in Step(w, p, a).procs ==> WriterFresh(Step(w, p, a).disk, Step(w, p, a).procs[q].writer)
  {
    var w' := Step(w, p, a);
    FreshKeeps(w.disk, p, w.procs[p], a);
    WriterOfNextProc(w.disk, p, w.procs[p], a);
    forall q | q in w'.procs && q != p ensures WriterFresh(w'.disk, w'.procs[q].writer) {
      BystanderStaysFresh(q, w.disk, p, w.procs[p], a, w.procs[q]);
    }
  }

  lemma InitHistory(w: World)
    requires Init(w)
    ensures WorldHistory(w)
  {
    InitOk(w);
  }

  lemma {:induction false} RunKeepsHistory(w: World, steps: seq<(Pid, Action)>, w': World)
    requires WorldHistory(w) && Runs(w, steps, w')
    ensures WorldHistory(w')
    decreases |steps|
  {
    if steps != [] {
      StepKeepsHistory(w, steps[0].0, steps[0].1);
      RunKeepsHistory(Step(w, steps[0].0, steps[0].1), steps[1..], w');
    }
  }

  // ------------------------------------------------- what an earlier read tells

  /** An entry of a folded log was committed by one of its deltas, or was there at
      the start. */
  lemma {:induction false} EntryCameFrom(base: Metas, log: seq<MetaDelta<Ver>>, sid: Sid) returns (i: int)
    requires sid in Fold(base, log)
    ensures -1 <= i < |log|
    ensures if i < 0 then sid in base && Fold(base, log)[sid] == base[sid]
            else sid in log[i].upserts && Fold(base, log)[sid] == log[i].upserts[sid]
  {
    LastDeltaDecides(base, log, sid);
    i := LastNaming(log, sid);
  }

  lemma {:induction false} LastNamingOfPrefix(log: seq<MetaDelta<Ver>>, n: nat, sid: Sid)
    requires n <= |log| && LastNaming(log, sid) < n
    ensures LastNaming(log[..n], sid) == LastNaming(log, sid)
  {
    assert forall k :: 0 <= k < n ==> log[..n][k] == log[k];
  }

  /** A session no delta has named since reads the same now; one that was named
      since reads the same exactly if it was absent and the last delta naming it
      deleted it. */
  lemma {:induction false} SameSinceRead(d: Disk, content: Metas, readAt: nat, sid: Sid)
    requires HistoryOk(d) && d.metas == Fold(d.base, d.log)
    requires readAt <= |d.log| && content == Fold(d.base, d.log[..readAt])
    ensures var i := LastNaming(d.log, sid);
            SameEntry(content, d.metas, sid) <==> (i >= readAt ==> sid !in content && sid in d.log[i].deletes)
  {
    var i := LastNaming(d.log, sid);
    LastDeltaDecides(d.base, d.log, sid);
    if i < readAt {
      LastNamingOfPrefix(d.log, readAt, sid);
      LastDeltaDecides(d.base, d.log[..readAt], sid);
    } else if sid in content && sid in d.metas {
      var j := EntryCameFrom(d.base, d.log[..readAt], sid);
      if j >= 0 { assert Apart(d.log[j].upserts, d.log[i].upserts); } else { assert Apart(d.base, d.log[i].upserts); }
    }
  }

  predicate SameEntry(a: Metas, b: Metas, sid: Sid) {
    (sid in a <==> sid in b) && (sid in a ==> a[sid] == b[sid])
  }
}
