/** Convergence of the reconcile loop over whole plans, in whatever order their
    actions are carried out. */
module Convergence {
  import opened Prelude
  import opened Ingest
  import opened IngestDelta
  import opened Reconcile
  import opened ReconcileProofs

  /** Session ids and source names are distinct and free of slashes, every source
      has files, its records name it, and the archive is filed accordingly. */
  ghost predicate Orderly(c: Corpus, ar: Archive) {
    && (forall i, j :: 0 <= i < j < |c.sessions| ==> c.sessions[i].id != c.sessions[j].id)
    && (forall i, j :: 0 <= i < j < |c.sources| ==> c.sources[i].src.name != c.sources[j].src.name)
    && (forall f :: f in c.sessions ==> Plain(f.id))
    && (forall o :: o in c.sources ==> Named(o) && OwnRecords(o, WatermarkOf(ar, o.src.name)))
    && Tidy(ar.index) && Owned(ar.watermarks)
  }

  predicate Named(o: Observed) { Plain(o.src.name) && o.src.name != "" && o.files != [] }

  predicate OwnRecords(o: Observed, wm: Option<Watermark>) {
    && OwnItems(FullItems(o.src, o.files), o.src.name)
    && (wm.Some? ==> OwnItems(Collect(Accepted(o.src.env), Past(wm.value.files), o.files), o.src.name))
  }

  /** Whether applying the source leaves it with a session: known before the
      plan is applied. */
  ghost predicate Yields(ar: Archive, o: Observed) {
    var wm := WatermarkOf(ar, o.src.name);
    if Usable(o.src, ar.index, o.files, wm)
    then Listed(ar.index, o.src.name) != map[] || Collect(Accepted(o.src.env), Past(wm.value.files), o.files) != []
    else FullItems(o.src, o.files) != []
  }

  /** The source is in sync already, or its files have distinct basenames and it
      yields a session. */
  ghost predicate Settles(ar: Archive, o: Observed) {
    ForSource(ar, o).SkipSource? || (DistinctNames(o.files) && Yields(ar, o))
  }

  // ----------------------------------------------------------- one source

  predicate Untouched(o: Observed, before: Archive, now: Archive) {
    Listed(now.index, o.src.name) == Listed(before.index, o.src.name) &&
    WatermarkOf(now, o.src.name) == WatermarkOf(before, o.src.name)
  }

  lemma {:induction false} MatchesListed(sessions: map<string, nat>, idx: Index, name: string)
    requires Tidy(idx) && name != "" && forall k :: k in sessions ==> Owner(k) == Some(name)
    ensures IndexMatches(sessions, idx) <==> IndexMatches(sessions, Listed(idx, name))
  {
    forall k | k in sessions && k in idx ensures k in Listed(idx, name) {
      assert TidyAt(k, idx[k]);
    }
  }

  lemma {:induction false} UntouchedYields(o: Observed, before: Archive, now: Archive)
    requires Tidy(before.index) && Tidy(now.index) && Owned(before.watermarks) && o.src.name != ""
    requires Untouched(o, before, now)
    ensures Yields(before, o) <==> Yields(now, o)
  {
    var wm := WatermarkOf(before, o.src.name);
    if wm.Some? {
      MatchesListed(wm.value.sessions, before.index, o.src.name);
      MatchesListed(wm.value.sessions, now.index, o.src.name);
    }
  }

  /** idx' and wms' differ only in what belongs to the source. */
  ghost predicate OnlySource(ar: Archive, ar': Archive, name: string) {
    && Elsewhere(ar.index, ar'.index, name)
    && forall n :: n != name ==> WatermarkOf(ar', n) == WatermarkOf(ar, n)
  }

  lemma {:induction false} SourceApplied(start: Index, ar: Archive, o: Observed)
    requires Tidy(ar.index) && Owned(ar.watermarks) && Named(o) && OwnRecords(o, WatermarkOf(ar, o.src.name))
    requires Listed(start, o.src.name) == Listed(ar.index, o.src.name)
    ensures var ar' := ApplySource(start, ar, o);
            && OnlySource(ar, ar', o.src.name) && Tidy(ar'.index) && Owned(ar'.watermarks)
            && (ForSource(ar', o).SkipSource? <==> DistinctNames(o.files) && Yields(ar, o))
  {
    var wm, name := WatermarkOf(ar, o.src.name), o.src.name;
    if Usable(o.src, ar.index, o.files, wm) {
      assert OwnedBy(ar.watermarks[name], name);
      DeltaLeaves(o, ar.index, wm.value);
      MarksAreSizes(wm.value.files, o.files);
      LeftSettled(ar, o, Delta(o.src, ar.index, o.files, wm.value), Yields(ar, o));
    } else {
      assert IdsOf(o.src, start) == Listed(start, name).Keys == IdsOf(o.src, ar.index);
      FullLeaves(o, ar.index);
      MarksAreSizes(map[], o.files);
      LeftSettled(ar, o, Full(o.src, ar.index, o.files), Yields(ar, o));
    }
  }

  lemma {:induction false} LeftSettled(ar: Archive, o: Observed, s: State, some: bool)
    requires Leaves(o, ar.index, s, some) && Owned(ar.watermarks) && Sizes(s.watermark.value.files, o.files)
    ensures var ar' := Recorded(ar, o, s);
            && OnlySource(ar, ar', o.src.name) && Tidy(ar'.index) && Owned(ar'.watermarks)
            && (ForSource(ar', o).SkipSource? <==> DistinctNames(o.files) && some)
  {
    SettlesIffDistinctNames(s.watermark.value, o.files);
  }

  lemma {:induction false} OthersUntouched(ar: Archive, ar': Archive, name: string, o: Observed)
    requires OnlySource(ar, ar', name) && Tidy(ar.index) && Tidy(ar'.index) && o.src.name != name && o.src.name != ""
    ensures Untouched(o, ar, ar')
  {
    forall k ensures k in Listed(ar.index, o.src.name) <==> k in Listed(ar'.index, o.src.name)
             ensures k in Listed(ar.index, o.src.name) ==> ar'.index[k] == ar.index[k]
    {
      assert k in ar.index ==> TidyAt(k, ar.index[k]);
      assert k in ar'.index ==> TidyAt(k, ar'.index[k]);
    }
  }

  // ------------------------------------------------------- along the plan

  ghost predicate Configured(c: Corpus, k: string) { Owner(k).Some? && Owner(k).value in SourceNames(c) }

  /** Entries that belong to no configured source have not changed. */
  ghost predicate Kept(c: Corpus, before: Index, now: Index) {
    forall k :: !Configured(c, k) ==> (k in before <==> k in now) && (k in before ==> now[k] == before[k])
  }

  ghost predicate SourceStatus(ar: Archive, plan: seq<Action>, w: Work, o: Observed) {
    if ForSource(ar, o) in plan
    then (ForSource(w.archive, o).SkipSource? <==> Settles(ar, o)) && o.src.name in w.live
    else Untouched(o, ar, w.archive)
  }

  ghost predicate Status(c: Corpus, ar: Archive, plan: seq<Action>, w: Work) {
    && Tidy(w.archive.index) && Owned(w.archive.watermarks)
    && Kept(c, ar.index, w.archive.index)
    && forall o :: o in c.sources ==> SourceStatus(ar, plan, w, o)
  }

  predicate OfSource(a: Action) { a.CreateSource? || a.UpdateSource? || a.SkipSource? }

  lemma {:induction false} SameSource(c: Corpus, ar: Archive, o: Observed, p: Observed)
    requires Orderly(c, ar) && o in c.sources && p in c.sources && o.src.name == p.src.name
    ensures o == p
  {
    var i :| 0 <= i < |c.sources| && c.sources[i] == o;
    var j :| 0 <= j < |c.sources| && c.sources[j] == p;
  }

  lemma {:induction false} SourceChanged(c: Corpus, ar: Archive, plan: seq<Action>, w: Work, a: Action)
    requires Orderly(c, ar) && Status(c, ar, plan, w) && Wanted(c, ar, a) && a !in plan
    requires a.CreateSource? || a.UpdateSource?
    ensures Status(c, ar, plan + [a], ApplyOne(c, ar.index, w, a))
  {
    var o, w' := a.source, ApplyOne(c, ar.index, w, a);
    assert SourceStatus(ar, plan, w, o);
    SourceApplied(ar.index, w.archive, o);
    UntouchedYields(o, ar, w.archive);
    KeptByOthers(c, w.archive, w'.archive, o);
    assert Kept(c, ar.index, w'.archive.index);
    forall p | p in c.sources ensures SourceStatus(ar, plan + [a], w', p) {
      if p.src.name == o.src.name {
        SameSource(c, ar, o, p);
      } else {
        OtherStatus(ar, plan, w, a, w', p);
      }
    }
  }

  lemma {:induction false} OtherStatus(ar: Archive, plan: seq<Action>, w: Work, a: Action, w': Work, p: Observed)
    requires SourceStatus(ar, plan, w, p) && OfSource(a) && a.source.src.name != p.src.name && p.src.name != ""
    requires OnlySource(w.archive, w'.archive, a.source.src.name) && w.live <= w'.live
    requires Tidy(w.archive.index) && Tidy(w'.archive.index)
    ensures SourceStatus(ar, plan + [a], w', p)
  {
    OthersUntouched(w.archive, w'.archive, a.source.src.name, p);
    assert ForSource(ar, p) != a;
  }

  lemma {:induction false} SameStatus(ar: Archive, plan: seq<Action>, w: Work, a: Action, w': Work, p: Observed)
    requires SourceStatus(ar, plan, w, p) && w'.archive == w.archive && w.live <= w'.live && a != ForSource(ar, p)
    ensures SourceStatus(ar, plan + [a], w', p)
  {
  }

  lemma {:induction false} KeptByOthers(c: Corpus, ar: Archive, ar': Archive, o: Observed)
    requires o in c.sources && OnlySource(ar, ar', o.src.name)
    ensures Kept(c, ar.index, ar'.index)
  {
    var i :| 0 <= i < |c.sources| && c.sources[i] == o;
    assert o.src.name in SourceNames(c);
  }

  lemma {:induction false} SourceSkipped(c: Corpus, ar: Archive, plan: seq<Action>, w: Work, a: Action)
    requires Orderly(c, ar) && Status(c, ar, plan, w) && Wanted(c, ar, a) && a !in plan && a.SkipSource?
    ensures Status(c, ar, plan + [a], ApplyOne(c, ar.index, w, a))
  {
    var w' := ApplyOne(c, ar.index, w, a);
    forall p | p in c.sources ensures SourceStatus(ar, plan + [a], w', p) {
      if a == ForSource(ar, p) {
        assert SourceStatus(ar, plan, w, p);
        assert Untouched(p, ar, w.archive);
      } else {
        SameStatus(ar, plan, w, a, w', p);
      }
    }
  }

  lemma {:induction false} NoSource(c: Corpus, ar: Archive, plan: seq<Action>, w: Work, a: Action)
    requires Status(c, ar, plan, w) && !OfSource(a)
    ensures Status(c, ar, plan + [a], ApplyOne(c, ar.index, w, a))
  {
    var w' := ApplyOne(c, ar.index, w, a);
    forall p | p in c.sources ensures SourceStatus(ar, plan + [a], w', p) {
      SameStatus(ar, plan, w, a, w', p);
    }
  }

  /** What the batches hold. */
  ghost predicate Batches(c: Corpus, ar: Archive, plan: seq<Action>, w: Work) {
    && w.upserts.Keys <= SessionIds(c)
    && (forall f :: f in c.sessions ==> SessionStatus(ar, plan, w, f))
    && forall k :: k in w.deletes <==> Delete(k) in plan
  }

  ghost predicate SessionStatus(ar: Archive, plan: seq<Action>, w: Work, f: SessionFile) {
    && (f.id in w.upserts ==> w.upserts[f.id].source == "" && !SessionDrift(w.upserts[f.id], f))
    && (ForSession(ar.index, f) in plan && IsChange(ForSession(ar.index, f)) ==> f.id in w.upserts)
  }

  lemma {:induction false} SessionEntry(c: Corpus, idx: Index, f: SessionFile)
    requires Tidy(idx) && Plain(f.id)
    ensures FullEntry(c, f).source == "" && !SessionDrift(FullEntry(c, f), f)
    ensures UpdatedEntry(c, idx, f).source == "" && !SessionDrift(UpdatedEntry(c, idx, f), f)
  {
    PlainHasNoOwner(f.id);
    assert f.id in idx ==> TidyAt(f.id, idx[f.id]);
  }

  lemma {:induction false} SessionUpserted(c: Corpus, ar: Archive, plan: seq<Action>, w: Work, a: Action)
    requires Orderly(c, ar) && Batches(c, ar, plan, w) && Wanted(c, ar, a) && Tidy(w.archive.index)
    requires a.CreateSession? || a.UpdateSession?
    ensures Batches(c, ar, plan + [a], ApplyOne(c, ar.index, w, a))
  {
    var w' := ApplyOne(c, ar.index, w, a);
    SessionEntry(c, w.archive.index, a.file);
    forall f | f in c.sessions ensures SessionStatus(ar, plan + [a], w', f) {
      assert SessionStatus(ar, plan, w, f);
      if f.id == a.file.id {
        var i :| 0 <= i < |c.sessions| && c.sessions[i] == f;
        var j :| 0 <= j < |c.sessions| && c.sessions[j] == a.file;
      }
    }
  }

  lemma {:induction false} NoSession(c: Corpus, ar: Archive, plan: seq<Action>, w: Work, a: Action)
    requires Batches(c, ar, plan, w) && !a.CreateSession? && !a.UpdateSession?
    ensures Batches(c, ar, plan + [a], ApplyOne(c, ar.index, w, a))
  {
    var w' := ApplyOne(c, ar.index, w, a);
    forall f | f in c.sessions ensures SessionStatus(ar, plan + [a], w', f) {
      assert SessionStatus(ar, plan, w, f);
    }
  }

  lemma {:induction false} OneAction(c: Corpus, ar: Archive, plan: seq<Action>, w: Work, a: Action)
    requires Orderly(c, ar) && Status(c, ar, plan, w) && Batches(c, ar, plan, w) && Wanted(c, ar, a) && a !in plan
    ensures var w' := ApplyOne(c, ar.index, w, a); Status(c, ar, plan + [a], w') && Batches(c, ar, plan + [a], w')
  {
    if a.CreateSource? || a.UpdateSource? {
      SourceChanged(c, ar, plan, w, a);
    } else if a.SkipSource? {
      SourceSkipped(c, ar, plan, w, a);
    } else {
      NoSource(c, ar, plan, w, a);
    }
    if a.CreateSession? || a.UpdateSession? {
      SessionUpserted(c, ar, plan, w, a);
    } else {
      NoSession(c, ar, plan, w, a);
    }
  }

  lemma {:induction false} AlongThePlan(c: Corpus, ar: Archive, plan: seq<Action>)
    requires Orderly(c, ar) && NoRepeats(plan) && forall a :: a in plan ==> Wanted(c, ar, a)
    ensures var w := ApplyAll(c, ar.index, Work(ar, map[], {}, {}), plan);
            Status(c, ar, plan, w) && Batches(c, ar, plan, w)
  {
    if plan != [] {
      var front, a := plan[..|plan| - 1], plan[|plan| - 1];
      assert plan == front + [a];
      AlongThePlan(c, ar, front);
      OneAction(c, ar, front, ApplyAll(c, ar.index, Work(ar, map[], {}, {}), front), a);
    }
  }

  // ----------------------------------------------------------- after the plan

  ghost predicate Finished(c: Corpus, ar: Archive, plan: seq<Action>, w: Work) {
    Orderly(c, ar) && IsPlan(c, ar, plan) && Status(c, ar, plan, w) && Batches(c, ar, plan, w)
  }

  lemma {:induction false} NotDeleted(c: Corpus, ar: Archive, plan: seq<Action>, w: Work, k: string)
    requires Finished(c, ar, plan, w)
    ensures k in w.deletes <==> k in ar.index && Stale(c, k, ar.index[k])
    ensures Configured(c, k) || k in SessionIds(c) ==> k !in w.deletes
  {
    assert k in w.deletes <==> Delete(k) in plan;
    assert Delete(k) in plan <==> Wanted(c, ar, Delete(k));
    assert k in ar.index ==> TidyAt(k, ar.index[k]);
    if k in SessionIds(c) {
      var f :| f in c.sessions && f.id == k;
      PlainHasNoOwner(k);
    }
  }

  lemma {:induction false} UpsertKey(c: Corpus, ar: Archive, w: Work, k: string)
    requires Orderly(c, ar) && k in w.upserts && w.upserts.Keys <= SessionIds(c)
    ensures Owner(k) == None && k in SessionIds(c)
  {
    var f :| f in c.sessions && f.id == k;
    PlainHasNoOwner(k);
  }

  lemma {:induction false} SourcesAfter(c: Corpus, ar: Archive, plan: seq<Action>, w: Work, o: Observed)
    requires Finished(c, ar, plan, w) && o in c.sources
    ensures ForSource(Finish(w), o).SkipSource? <==> Settles(ar, o)
  {
    assert Wanted(c, ar, ForSource(ar, o));
    assert SourceStatus(ar, plan, w, o);
    ListedAfter(c, ar, plan, w, o);
  }

  lemma {:induction false} ListedAfter(c: Corpus, ar: Archive, plan: seq<Action>, w: Work, o: Observed)
    requires Finished(c, ar, plan, w) && o in c.sources
    ensures Listed(Finish(w).index, o.src.name) == Listed(w.archive.index, o.src.name)
  {
    assert o.src.name in SourceNames(c) by { var i :| 0 <= i < |c.sources| && c.sources[i] == o; }
    forall k ensures var idx, idx' := w.archive.index, Finish(w).index;
                     && (k in Listed(idx', o.src.name) <==> k in Listed(idx, o.src.name))
                     && (k in Listed(idx, o.src.name) ==> idx'[k] == idx[k])
    {
      KeyAfter(c, ar, plan, w, o.src.name, k);
    }
  }

  lemma {:induction false} KeyAfter(c: Corpus, ar: Archive, plan: seq<Action>, w: Work, name: string, k: string)
    requires Finished(c, ar, plan, w) && name in SourceNames(c)
    ensures var idx, idx' := w.archive.index, Finish(w).index;
            && (k in Listed(idx', name) <==> k in Listed(idx, name))
            && (k in Listed(idx, name) ==> idx'[k] == idx[k])
  {
    assert name != "" by { var i :| 0 <= i < |c.sources| && c.sources[i].src.name == name; assert c.sources[i] in c.sources; }
    var idx, idx' := w.archive.index, Finish(w).index;
    NotDeleted(c, ar, plan, w, k);
    if k in w.upserts {
      UpsertKey(c, ar, w, k);
      UpsertSource(c, ar, plan, w, k);
      assert k in idx ==> TidyAt(k, idx[k]);
      assert k !in Listed(idx, name);
      assert k in idx' ==> idx'[k] == w.upserts[k];
    } else if k in idx {
      assert TidyAt(k, idx[k]);
      assert k in Listed(idx, name) ==> Configured(c, k);
      assert k in idx' ==> idx'[k] == idx[k];
    } else {
      assert k !in idx';
    }
  }

  lemma {:induction false} UpsertSource(c: Corpus, ar: Archive, plan: seq<Action>, w: Work, k: string)
    requires Batches(c, ar, plan, w) && k in w.upserts
    ensures w.upserts[k].source == ""
  {
    var f :| f in c.sessions && f.id == k;
    assert SessionStatus(ar, plan, w, f);
  }

  lemma {:induction false} SessionsAfter(c: Corpus, ar: Archive, plan: seq<Action>, w: Work, f: SessionFile)
    requires Finished(c, ar, plan, w) && f in c.sessions
    ensures ForSession(Finish(w).index, f).SkipSession?
  {
    assert Wanted(c, ar, ForSession(ar.index, f));
    assert SessionStatus(ar, plan, w, f);
    assert f.id in SessionIds(c);
    NotDeleted(c, ar, plan, w, f.id);
    PlainHasNoOwner(f.id);
    assert !Configured(c, f.id);
  }

  lemma {:induction false} NothingStaleAfter(c: Corpus, ar: Archive, plan: seq<Action>, w: Work, k: string)
    requires Finished(c, ar, plan, w) && k in Finish(w).index
    ensures !Stale(c, k, Finish(w).index[k]) && TidyAt(k, Finish(w).index[k])
  {
    NotDeleted(c, ar, plan, w, k);
    if k in w.upserts {
      UpsertKey(c, ar, w, k);
      UpsertSource(c, ar, plan, w, k);
    } else {
      assert TidyAt(k, w.archive.index[k]);
      if !Configured(c, k) { assert w.archive.index[k] == ar.index[k]; }
    }
  }

  /** After a failure-free apply, in any order of the plan's actions, a new plan on
      unchanged files has no create, update or delete, if and only if every
      configured source settles; and the archive stays filed as it should be. */
  lemma {:induction false} AppliedPlanConverges(c: Corpus, ar: Archive, plan: seq<Action>, next: seq<Action>)
    requires Orderly(c, ar) && IsPlan(c, ar, plan) && IsPlan(c, Applied(c, ar, plan), next)
    ensures (forall a :: a in next ==> !IsChange(a)) <==> (forall o :: o in c.sources ==> Settles(ar, o))
    ensures Tidy(Applied(c, ar, plan).index) && Owned(Applied(c, ar, plan).watermarks)
  {
    AlongThePlan(c, ar, plan);
    var w := ApplyAll(c, ar.index, Work(ar, map[], {}, {}), plan);
    var ar' := Finish(w);
    forall k | k in ar'.index ensures TidyAt(k, ar'.index[k]) { NothingStaleAfter(c, ar, plan, w, k); }
    NextPlan(c, ar, plan, w, next);
  }

  lemma {:induction false} NextPlan(c: Corpus, ar: Archive, plan: seq<Action>, w: Work, next: seq<Action>)
    requires Finished(c, ar, plan, w) && IsPlan(c, Finish(w), next)
    ensures (forall a :: a in next ==> !IsChange(a)) <==> (forall o :: o in c.sources ==> Settles(ar, o))
  {
    var ar' := Finish(w);
    forall o | o in c.sources ensures ForSource(ar', o) in next && (!IsChange(ForSource(ar', o)) <==> Settles(ar, o)) {
      SourcesAfter(c, ar, plan, w, o);
      assert Wanted(c, ar', ForSource(ar', o));
    }
    forall a | a in next ensures !IsChange(a) || (OfSource(a) && a.source in c.sources && a == ForSource(ar', a.source)) {
      assert Wanted(c, ar', a);
      if !OfSource(a) { OneWanted(c, ar, plan, w, a); }
    }
  }

  lemma {:induction false} OneWanted(c: Corpus, ar: Archive, plan: seq<Action>, w: Work, a: Action)
    requires Finished(c, ar, plan, w) && Wanted(c, Finish(w), a) && !OfSource(a)
    ensures !IsChange(a)
  {
    if a.Delete? {
      NothingStaleAfter(c, ar, plan, w, a.id);
    } else {
      SessionsAfter(c, ar, plan, w, a.file);
    }
  }
}
