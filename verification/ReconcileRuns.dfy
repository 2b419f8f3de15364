/** Reconcile cycles one after the other, over files that come, grow and go: after
    every cycle the archive holds the full parse of the files as they are. */
module ReconcileRuns {
  import opened Prelude
  import opened Ingest
  import opened IngestDelta
  import opened IngestFiles
  import opened IngestTheorems
  import opened IngestCrashes
  import opened Reconcile
  import opened ReconcileProofs
  import opened Convergence
  import Coverage
  import PM = PlanMeaning
  import S = IngestSessions
  import SI = SessionIndexing

  // ------------------------------------- a source sees only its own sessions

  function StateOf(ar: Archive, o: Observed): State { State(ar.index, WatermarkOf(ar, o.src.name)) }

  /** The same sessions of the source, and the same watermark. */
  ghost predicate Like(s: State, t: State, name: string) {
    Listed(s.index, name) == Listed(t.index, name) && s.watermark == t.watermark
  }

  lemma {:induction false} ListedAtKey(a: Index, b: Index, name: string, k: string)
    requires Tidy(a) && Tidy(b) && name != "" && Listed(a, name) == Listed(b, name) && Owner(k) == Some(name)
    ensures (k in a <==> k in b) && (k in a ==> a[k] == b[k] && a[k].source == name)
  {
    assert k in a ==> TidyAt(k, a[k]) && k in Listed(a, name);
    assert k in b ==> TidyAt(k, b[k]) && k in Listed(b, name);
    assert k in Listed(a, name) ==> Listed(a, name)[k] == a[k];
    assert k in Listed(b, name) ==> Listed(b, name)[k] == b[k];
  }

  lemma {:induction false} AddAllLocal(a: Index, b: Index, name: string, s: Sessions, items: seq<Item>)
    requires Tidy(a) && Tidy(b) && name != "" && Listed(a, name) == Listed(b, name) && OwnKeys(items, name)
    ensures AddAll(a, s, items) == AddAll(b, s, items)
    decreases |items|
  {
    if items != [] {
      ListedAtKey(a, b, name, items[0].key);
      assert AddTo(a, s, items[0]) == AddTo(b, s, items[0]);
      assert OwnKeys(items[1..], name);
      AddAllLocal(a, b, name, AddTo(a, s, items[0]), items[1..]);
    }
  }

  lemma ListedOfSum(a: Index, b: Index, batch: Index, name: string)
    requires Listed(a, name) == Listed(b, name)
    ensures Listed(a + batch, name) == Listed(b + batch, name)
  {
    forall k ensures k in Listed(a + batch, name) <==> k in Listed(b + batch, name)
             ensures k in Listed(a + batch, name) ==> (a + batch)[k] == (b + batch)[k]
    {
      assert k in Listed(a, name) <==> k in Listed(b, name);
      assert k in Listed(a, name) ==> Listed(a, name)[k] == Listed(b, name)[k];
    }
  }

  lemma {:induction false} DeltaLocal(o: Observed, a: Index, b: Index, wm: Watermark)
    requires Tidy(a) && Tidy(b) && Named(o) && Listed(a, o.src.name) == Listed(b, o.src.name)
    requires OwnItems(Collect(Accepted(o.src.env), Past(wm.files), o.files), o.src.name)
    ensures Like(Delta(o.src, a, o.files, wm), Delta(o.src, b, o.files, wm), o.src.name)
  {
    OwnItemsHaveOwnKeys(o.src, Past(wm.files), o.files);
    AddAllLocal(a, b, o.src.name, map[], Collect(Accepted(o.src.env), Past(wm.files), o.files));
    ListedOfSum(a, b, Touched(DeltaSessions(o.src, a, o.files, wm.files), o.files), o.src.name);
  }

  /** A full parse leaves exactly what it parsed. */
  lemma {:induction false} FullLists(src: Source, idx: Index, files: seq<File>)
    ensures var parsed := Parsed(AddAll(map[], map[], FullItems(src, files)), files);
            Listed(Full(src, idx, files).index, src.name) == Listed(parsed, src.name)
  {
    var parsed, after := Parsed(AddAll(map[], map[], FullItems(src, files)), files), Full(src, idx, files).index;
    forall k ensures k in Listed(after, src.name) <==> k in Listed(parsed, src.name)
             ensures k in Listed(after, src.name) ==> after[k] == parsed[k]
    {
      if k in after && k !in parsed { assert k in idx && k !in IdsOf(src, idx) && after[k] == idx[k]; }
    }
  }

  lemma SessionsListed(src: Source, idx: Index)
    ensures var listed := Listed(idx, src.name);
            SessionsOf(src, idx) == map k | k in listed :: listed[k].session.turnCount
  {
  }

  lemma {:induction false} FullLocal(src: Source, a: Index, b: Index, files: seq<File>)
    ensures Like(Full(src, a, files), Full(src, b, files), src.name)
  {
    FullLists(src, a, files);
    FullLists(src, b, files);
    SessionsListed(src, Full(src, a, files).index);
    SessionsListed(src, Full(src, b, files).index);
  }

  lemma {:induction false} CycleLocal(o: Observed, s: State, t: State)
    requires Tidy(s.index) && Tidy(t.index) && Named(o) && Like(s, t, o.src.name) && OwnRecords(o, s.watermark)
    requires s.watermark.Some? ==> OwnedBy(s.watermark.value, o.src.name)
    ensures Like(Cycle(o.src, s, o.files), Cycle(o.src, t, o.files), o.src.name)
  {
    FullLocal(o.src, s.index, t.index, o.files);
    if s.watermark.Some? {
      MatchesListed(s.watermark.value.sessions, s.index, o.src.name);
      MatchesListed(s.watermark.value.sessions, t.index, o.src.name);
      DeltaLocal(o, s.index, t.index, s.watermark.value);
    }
  }

  /** Applying a source is one cycle of it. */
  lemma {:induction false} ApplyIsCycle(start: Index, ar: Archive, o: Observed)
    requires o.files != [] && Listed(start, o.src.name) == Listed(ar.index, o.src.name)
    ensures StateOf(ApplySource(start, ar, o), o) == Cycle(o.src, StateOf(ar, o), o.files)
  {
    assert IdsOf(o.src, start) == Listed(start, o.src.name).Keys == IdsOf(o.src, ar.index);
  }

  // ------------------------------------------------------------ along a plan

  /** What the plan so far has made of the source. */
  ghost predicate Progress(ar: Archive, plan: seq<Action>, w: Work, o: Observed) {
    Like(StateOf(w.archive, o), Intended(ar, plan, o), o.src.name)
  }

  ghost function Intended(ar: Archive, plan: seq<Action>, o: Observed): State {
    if ForSource(ar, o) in plan && IsChange(ForSource(ar, o)) then Cycle(o.src, StateOf(ar, o), o.files) else StateOf(ar, o)
  }

  lemma {:induction false} OwnProgress(c: Corpus, ar: Archive, plan: seq<Action>, w: Work, o: Observed)
    requires Orderly(c, ar) && Status(c, ar, plan, w) && o in c.sources && ForSource(ar, o) !in plan
    requires Progress(ar, plan, w, o)
    ensures Like(StateOf(ApplySource(ar.index, w.archive, o), o), Cycle(o.src, StateOf(ar, o), o.files), o.src.name)
  {
    assert SourceStatus(ar, plan, w, o);
    ApplyIsCycle(ar.index, w.archive, o);
    CycleLocal(o, StateOf(w.archive, o), StateOf(ar, o));
  }

  lemma {:induction false} OtherProgress(c: Corpus, ar: Archive, plan: seq<Action>, w: Work, a: Action, o: Observed)
    requires Orderly(c, ar) && Status(c, ar, plan, w) && o in c.sources && Wanted(c, ar, a) && a !in plan
    requires (a.CreateSource? || a.UpdateSource?) && a.source.src.name != o.src.name
    ensures Like(StateOf(ApplySource(ar.index, w.archive, a.source), o), StateOf(w.archive, o), o.src.name)
  {
    assert SourceStatus(ar, plan, w, a.source);
    SourceApplied(ar.index, w.archive, a.source);
    OthersUntouched(w.archive, ApplySource(ar.index, w.archive, a.source), a.source.src.name, o);
  }

  lemma {:induction false} OneProgress(c: Corpus, ar: Archive, plan: seq<Action>, w: Work, a: Action, o: Observed)
    requires Orderly(c, ar) && Status(c, ar, plan, w) && o in c.sources && Wanted(c, ar, a) && a !in plan
    requires Progress(ar, plan, w, o)
    ensures Progress(ar, plan + [a], ApplyOne(c, ar.index, w, a), o)
  {
    if (a.CreateSource? || a.UpdateSource?) && a.source.src.name == o.src.name {
      SameSource(c, ar, a.source, o);
      OwnProgress(c, ar, plan, w, o);
      assert a in plan + [a] && Intended(ar, plan + [a], o) == Cycle(o.src, StateOf(ar, o), o.files);
    } else if a.CreateSource? || a.UpdateSource? {
      OtherProgress(c, ar, plan, w, a, o);
      SameIntent(ar, plan, a, o);
    } else {
      SameIntent(ar, plan, a, o);
      assert ApplyOne(c, ar.index, w, a).archive == w.archive;
    }
  }

  lemma {:induction false} SameIntent(ar: Archive, plan: seq<Action>, a: Action, o: Observed)
    requires !(a.CreateSource? || a.UpdateSource?) || a.source.src.name != o.src.name
    ensures Intended(ar, plan + [a], o) == Intended(ar, plan, o)
  {
    assert ForSource(ar, o).source == o;
    assert IsChange(ForSource(ar, o)) ==> ForSource(ar, o) != a;
  }

  lemma {:induction false} AllProgress(c: Corpus, ar: Archive, plan: seq<Action>, o: Observed)
    requires Orderly(c, ar) && NoRepeats(plan) && (forall a :: a in plan ==> Wanted(c, ar, a)) && o in c.sources
    ensures Progress(ar, plan, ApplyAll(c, ar.index, Work(ar, map[], {}, {}), plan), o)
  {
    if plan != [] {
      var front, a := plan[..|plan| - 1], plan[|plan| - 1];
      assert plan == front + [a];
      AlongThePlan(c, ar, front);
      AllProgress(c, ar, front, o);
      OneProgress(c, ar, front, ApplyAll(c, ar.index, Work(ar, map[], {}, {}), front), a, o);
    }
  }

  /** In whatever order the plan is carried out, it leaves each source as one cycle
      of that source alone would, or as it was if there was nothing to do. */
  lemma {:induction false} SourceIsCycled(c: Corpus, ar: Archive, plan: seq<Action>, o: Observed)
    requires Orderly(c, ar) && IsPlan(c, ar, plan) && o in c.sources
    ensures Like(StateOf(Applied(c, ar, plan), o),
                 if IsChange(ForSource(ar, o)) then Cycle(o.src, StateOf(ar, o), o.files) else StateOf(ar, o), o.src.name)
  {
    var w := ApplyAll(c, ar.index, Work(ar, map[], {}, {}), plan);
    AlongThePlan(c, ar, plan);
    AllProgress(c, ar, plan, o);
    ListedAfter(c, ar, plan, w, o);
    assert Wanted(c, ar, ForSource(ar, o));
    assert SourceStatus(ar, plan, w, o);
  }

  // ------------------------------------------------------------ session files

  ghost predicate UpsertIs(c: Corpus, ar: Archive, w: Work, f: SessionFile) {
    f.id in w.upserts ==>
      w.upserts[f.id] == if f.id !in ar.index then FullEntry(c, f) else UpdatedEntry(c, ar.index, f)
  }

  lemma {:induction false} SameFile(c: Corpus, ar: Archive, f: SessionFile, g: SessionFile)
    requires Orderly(c, ar) && f in c.sessions && g in c.sessions && f.id == g.id
    ensures f == g
  {
    var i :| 0 <= i < |c.sessions| && c.sessions[i] == f;
    var j :| 0 <= j < |c.sessions| && c.sessions[j] == g;
  }

  lemma {:induction false} UpsertsAre(c: Corpus, ar: Archive, plan: seq<Action>, f: SessionFile)
    requires Orderly(c, ar) && NoRepeats(plan) && (forall a :: a in plan ==> Wanted(c, ar, a)) && f in c.sessions
    ensures UpsertIs(c, ar, ApplyAll(c, ar.index, Work(ar, map[], {}, {}), plan), f)
  {
    if plan != [] {
      var front, a := plan[..|plan| - 1], plan[|plan| - 1];
      assert plan == front + [a];
      var w := ApplyAll(c, ar.index, Work(ar, map[], {}, {}), front);
      AlongThePlan(c, ar, front);
      UpsertsAre(c, ar, front, f);
      PlainHasNoOwner(f.id);
      assert !Configured(c, f.id);
      assert Wanted(c, ar, a);
      if (a.CreateSession? || a.UpdateSession?) && a.file.id == f.id { SameFile(c, ar, a.file, f); }
    }
  }

  /** In whatever order the plan is carried out, a session file is created, updated
      or left alone on its own. */
  lemma {:induction false} SessionIsIndexed(c: Corpus, ar: Archive, plan: seq<Action>, f: SessionFile)
    requires Orderly(c, ar) && IsPlan(c, ar, plan) && f in c.sessions
    ensures var after := Applied(c, ar, plan).index;
            f.id in after && after[f.id] ==
              match ForSession(ar.index, f)
              case CreateSession(_) => FullEntry(c, f)
              case UpdateSession(_) => UpdatedEntry(c, ar.index, f)
              case _ => ar.index[f.id]
  {
    var w := ApplyAll(c, ar.index, Work(ar, map[], {}, {}), plan);
    AlongThePlan(c, ar, plan);
    UpsertsAre(c, ar, plan, f);
    assert Wanted(c, ar, ForSession(ar.index, f));
    assert SessionStatus(ar, plan, w, f);
    assert f.id in SessionIds(c);
    NotDeleted(c, ar, plan, w, f.id);
    PlainHasNoOwner(f.id);
    assert !Configured(c, f.id);
    if ForSession(ar.index, f).SkipSession? { OnlyPlanned(c, ar, plan, f); }
  }

  lemma {:induction false} OnlyPlanned(c: Corpus, ar: Archive, plan: seq<Action>, f: SessionFile)
    requires Orderly(c, ar) && (forall a :: a in plan ==> Wanted(c, ar, a)) && f in c.sessions
    requires ForSession(ar.index, f).SkipSession?
    ensures f.id !in ApplyAll(c, ar.index, Work(ar, map[], {}, {}), plan).upserts
  {
    if plan != [] {
      var front, a := plan[..|plan| - 1], plan[|plan| - 1];
      OnlyPlanned(c, ar, front, f);
      assert Wanted(c, ar, a);
      if (a.CreateSession? || a.UpdateSession?) && a.file.id == f.id { SameFile(c, ar, a.file, f); }
    }
  }

  // ------------------------------------------------------- what is current

  /** The entry is the full parse of the file, stamped with an mtime at most two
      seconds away. */
  ghost predicate SessionCurrent(c: Corpus, ar: Archive, f: SessionFile) {
    && f.id in ar.index
    && exists t :: !PM.FarApart(t, f.mtime) && ar.index[f.id] == Entry("", "", SI.FullIndex(ConfigFor(c, f), f.data, t))
  }

  /** The sessions of the source are those of one pass over all its records, and the
      watermark is that of a full parse. */
  ghost predicate SourceCurrent(ar: Archive, o: Observed) {
    && CaughtUp(o.src, StateOf(ar, o), o.files)
    && forall k :: Owner(k) == Some(o.src.name) ==> S.At(ar.index, k) == S.Reference(FullItems(o.src, o.files), k)
  }

  /** And nothing else is there. */
  ghost predicate Current(c: Corpus, ar: Archive) {
    && (forall f :: f in c.sessions ==> SessionCurrent(c, ar, f))
    && (forall o :: o in c.sources ==> SourceCurrent(ar, o))
    && (forall k :: k in ar.index ==> !Stale(c, k, ar.index[k]))
    && ar.watermarks.Keys <= SourceNames(c)
    && Tidy(ar.index) && Owned(ar.watermarks)
  }

  /** What the readers and the ids of a source must satisfy. */
  ghost predicate Readable(o: Observed) {
    && HashesAreHex(o.src.env) && Snapshot(o.src, o.files)
    && forall k :: S.NoClash(S.DedupsIn(FullItems(o.src, o.files), k))
  }

  /** Session ids and source names are distinct and free of slashes, and every source
      has files, whose records name it. */
  ghost predicate Proper(c: Corpus) {
    && (forall i, j :: 0 <= i < j < |c.sessions| ==> c.sessions[i].id != c.sessions[j].id)
    && (forall i, j :: 0 <= i < j < |c.sources| ==> c.sources[i].src.name != c.sources[j].src.name)
    && (forall f :: f in c.sessions ==> Plain(f.id))
    && (forall o :: o in c.sources ==> Named(o) && OwnItems(FullItems(o.src, o.files), o.src.name) && Readable(o))
  }

  /** Between two cycles files that stay only grow; others come and go. */
  ghost predicate Evolves(c: Corpus, c': Corpus) {
    && c'.decode == c.decode && c'.maxTurnLen == c.maxTurnLen
    && (forall f, f' :: f in c.sessions && f' in c'.sessions && f.id == f'.id ==>
          SI.AppendIsSafe(ConfigFor(c, f), f.data, f'.data))
    && (forall o, o' :: o in c.sources && o' in c'.sources && o.src.name == o'.src.name ==> SourceEvolves(o, o'))
  }

  ghost predicate SourceEvolves(o: Observed, o': Observed) {
    o'.src == o.src && Readable(o) && GrowsInOrder(o.files, o'.files)
  }

  lemma {:induction false} OwnRecordsPast(ar: Archive, o: Observed, o': Observed)
    requires SourceCurrent(ar, o) && SourceEvolves(o, o') && Readable(o') && OwnItems(FullItems(o'.src, o'.files), o'.src.name)
    ensures OwnRecords(o', WatermarkOf(ar, o'.src.name))
  {
    InOrderItems(o.src, o.files, o'.files);
    OwnSuffix(FullItems(o.src, o.files), Collect(Accepted(o.src.env), Past(FullMarks(o.files)), o'.files), o.src.name);
  }

  lemma {:induction false} OwnSuffix(a: seq<Item>, b: seq<Item>, name: string)
    requires OwnItems(a + b, name)
    ensures OwnItems(b, name)
  {
    forall i | 0 <= i < |b| ensures b[i].source == name { assert (a + b)[|a| + i] == b[i]; }
  }

  lemma {:induction false} StillOrderly(c: Corpus, ar: Archive, c': Corpus)
    requires Current(c, ar) && Evolves(c, c') && Proper(c')
    ensures Orderly(c', ar)
  {
    forall o' | o' in c'.sources ensures OwnRecords(o', WatermarkOf(ar, o'.src.name)) {
      if o'.src.name in ar.watermarks {
        var i :| 0 <= i < |c.sources| && c.sources[i].src.name == o'.src.name;
        assert c.sources[i] in c.sources;
        OwnRecordsPast(ar, c.sources[i], o');
      }
    }
  }

  // -------------------------------------------------------- one cycle: sessions

  lemma {:induction false} SessionStaysCurrent(
    c: Corpus, ar: Archive, c': Corpus, plan: seq<Action>, f: SessionFile, f': SessionFile)
    requires Orderly(c', ar) && IsPlan(c', ar, plan) && Evolves(c, c') && SessionCurrent(c, ar, f)
    requires f in c.sessions && f' in c'.sessions && f.id == f'.id
    ensures SessionCurrent(c', Applied(c', ar, plan), f')
  {
    SessionIsIndexed(c', ar, plan, f');
    PM.SessionsPlanned(c', ar, plan, f');
    var cfg := ConfigFor(c, f);
    assert ConfigFor(c', f') == cfg && SI.AppendIsSafe(cfg, f.data, f'.data);
    var t :| !PM.FarApart(t, f.mtime) && ar.index[f.id] == Entry("", "", SI.FullIndex(cfg, f.data, t));
    if ForSession(ar.index, f').SkipSession? {
      assert f.data == f'.data;
      assert !PM.FarApart(t, f'.mtime);
    } else {
      if SI.Resumable(f'.data, f'.mtime, ar.index[f.id].session) {
        SI.ResumedEqualsFull(cfg, f.data, t, f'.data, f'.mtime);
      }
      assert !PM.FarApart(f'.mtime, f'.mtime);
      assert Applied(c', ar, plan).index[f'.id] == Entry("", "", SI.FullIndex(cfg, f'.data, f'.mtime));
    }
  }

  lemma {:induction false} SessionBecomesCurrent(c: Corpus, ar: Archive, plan: seq<Action>, f: SessionFile)
    requires Orderly(c, ar) && IsPlan(c, ar, plan) && f in c.sessions && f.id !in ar.index
    ensures SessionCurrent(c, Applied(c, ar, plan), f)
  {
    SessionIsIndexed(c, ar, plan, f);
    assert !PM.FarApart(f.mtime, f.mtime);
  }

  lemma {:induction false} SessionsAreCurrent(c: Corpus, ar: Archive, c': Corpus, plan: seq<Action>, f': SessionFile)
    requires Current(c, ar) && Orderly(c', ar) && IsPlan(c', ar, plan) && Evolves(c, c') && f' in c'.sessions
    ensures SessionCurrent(c', Applied(c', ar, plan), f')
  {
    if f'.id in ar.index {
      PlainHasNoOwner(f'.id);
      assert TidyAt(f'.id, ar.index[f'.id]) && !Stale(c, f'.id, ar.index[f'.id]);
      assert f'.id in SessionIds(c);
      var f :| f in c.sessions && f.id == f'.id;
      SessionStaysCurrent(c, ar, c', plan, f, f');
    } else {
      SessionBecomesCurrent(c', ar, plan, f');
    }
  }

  // --------------------------------------------------------- one cycle: sources

  lemma {:induction false} LikeAt(s: State, t: State, name: string, k: string)
    requires Tidy(s.index) && Tidy(t.index) && name != "" && Like(s, t, name) && Owner(k) == Some(name)
    ensures S.At(s.index, k) == S.At(t.index, k)
  {
    ListedAtKey(s.index, t.index, name, k);
  }

  lemma {:induction false} CurrentWhenLike(ar: Archive, o: Observed, t: State)
    requires Tidy(ar.index) && Tidy(t.index) && o.src.name != "" && Like(StateOf(ar, o), t, o.src.name)
    requires CaughtUp(o.src, t, o.files)
    requires forall k :: Owner(k) == Some(o.src.name) ==> S.At(t.index, k) == S.Reference(FullItems(o.src, o.files), k)
    ensures SourceCurrent(ar, o)
  {
    forall k | Owner(k) == Some(o.src.name) ensures S.At(ar.index, k) == S.Reference(FullItems(o.src, o.files), k) {
      LikeAt(StateOf(ar, o), t, o.src.name, k);
    }
  }

  lemma {:induction false} CycleTidy(ar: Archive, o: Observed)
    requires Tidy(ar.index) && Owned(ar.watermarks) && Named(o) && OwnRecords(o, WatermarkOf(ar, o.src.name))
    ensures Tidy(Cycle(o.src, StateOf(ar, o), o.files).index)
  {
    SourceApplied(ar.index, ar, o);
    ApplyIsCycle(ar.index, ar, o);
  }

  /** A source that was there before and has changed. */
  lemma {:induction false} CycledIsCurrent(ar: Archive, o: Observed, o': Observed, ar': Archive)
    requires Tidy(ar.index) && Owned(ar.watermarks) && Named(o') && OwnRecords(o', WatermarkOf(ar, o'.src.name))
    requires Readable(o') && SourceEvolves(o, o') && SourceCurrent(ar, o)
    requires Tidy(ar'.index) && Like(StateOf(ar', o'), Cycle(o'.src, StateOf(ar, o'), o'.files), o'.src.name)
    ensures SourceCurrent(ar', o')
  {
    var s := StateOf(ar, o');
    CycleTidy(ar, o');
    CycleCatchesUp(o'.src, s, o.files, o'.files);
    forall k | Owner(k) == Some(o'.src.name)
      ensures S.At(Cycle(o'.src, s, o'.files).index, k) == S.Reference(FullItems(o'.src, o'.files), k)
    {
      CycleKeepsReference(o'.src, s, o.files, o'.files, k);
    }
    CurrentWhenLike(ar', o', Cycle(o'.src, s, o'.files));
  }

  /** A source that is new. */
  lemma {:induction false} NewIsCurrent(ar: Archive, o: Observed, ar': Archive)
    requires Tidy(ar.index) && Owned(ar.watermarks) && Named(o) && OwnRecords(o, WatermarkOf(ar, o.src.name))
    requires o.src.name !in ar.watermarks && Listed(ar.index, o.src.name) == map[]
    requires Tidy(ar'.index) && Like(StateOf(ar', o), Cycle(o.src, StateOf(ar, o), o.files), o.src.name)
    ensures SourceCurrent(ar', o)
  {
    var s := StateOf(ar, o);
    CycleTidy(ar, o);
    forall k | Owner(k) == Some(o.src.name)
      ensures S.At(Cycle(o.src, s, o.files).index, k) == S.Reference(FullItems(o.src, o.files), k)
    {
      assert k in ar.index ==> TidyAt(k, ar.index[k]) && k in Listed(ar.index, o.src.name);
      FullAt(o.src, ar.index, o.files, k);
    }
    CurrentWhenLike(ar', o, Cycle(o.src, s, o.files));
  }

  /** A source whose files have not changed. */
  lemma {:induction false} UnchangedSource(o: Observed, o': Observed, wm: Watermark)
    requires SourceEvolves(o, o') && Readable(o') && wm.files == FullMarks(o.files) && !PM.FilesDiffer(wm, o'.files)
    ensures FullItems(o'.src, o'.files) == FullItems(o.src, o.files)
    ensures FullCoverage(o'.src, o'.files) == FullCoverage(o.src, o.files)
    ensures FullMarks(o'.files) == FullMarks(o.files)
  {
    var marks := FullMarks(o.files);
    forall i | 0 <= i < |o'.files| ensures PastMark(marks, o'.files[i]) == [] {
      PM.UnchangedHasNothingPast(o.files, o'.files, wm, i);
    }
    InOrderItems(o.src, o.files, o'.files);
    NothingPast(Accepted(o.src.env), marks, o'.files);
    assert FullItems(o.src, o.files) + [] == FullItems(o.src, o.files);
    CoverageAfterGrowth(o.src, o.files, o'.files);
    NothingPast(CountedFor(o.src.env, o.src.name), marks, o'.files);
    Coverage.NothingAdded(FullCoverage(o.src, o.files), DeltaCoverage(o.src, o'.files, marks));
    UnchangedMarks(o.files, o'.files, wm);
  }

  lemma {:induction false} UnchangedMarks(prev: seq<File>, next: seq<File>, wm: Watermark)
    requires Sorted(prev) && Sorted(next) && Grows(prev, next)
    requires wm.files == FullMarks(prev) && !PM.FilesDiffer(wm, next)
    ensures FullMarks(next) == FullMarks(prev)
  {
    FullMarksAre(prev);
    FullMarksAre(next);
    forall name | name in Names(prev) ensures name in FullMarks(next) && FullMarks(next)[name] == FullMarks(prev)[name] {
      var i, j := NameMoves(prev, next, name);
      assert wm.files[name].size == |next[j].data|;
      assert prev[i].data == next[j].data;
    }
    forall name | name in Names(next) ensures name in FullMarks(prev) {
      var j := PositionOf(next, name);
      assert next[j].name in wm.files;
    }
  }

  lemma {:induction false} SkippedIsCurrent(ar: Archive, o: Observed, o': Observed, ar': Archive)
    requires Tidy(ar.index) && Tidy(ar'.index) && Named(o') && Readable(o') && SourceEvolves(o, o') && SourceCurrent(ar, o)
    requires ForSource(ar, o').SkipSource? && Like(StateOf(ar', o'), StateOf(ar, o'), o'.src.name)
    ensures SourceCurrent(ar', o')
  {
    var wm := ar.watermarks[o.src.name];
    PM.DriftIffChanged(ar, o');
    assert !PM.FilesDiffer(wm, o'.files);
    UnchangedSource(o, o', wm);
    CurrentWhenLike(ar', o', StateOf(ar, o'));
  }

  lemma {:induction false} SourcesAreCurrent(c: Corpus, ar: Archive, c': Corpus, plan: seq<Action>, o': Observed)
    requires Current(c, ar) && Orderly(c', ar) && IsPlan(c', ar, plan) && Evolves(c, c') && o' in c'.sources && Readable(o')
    requires Tidy(Applied(c', ar, plan).index)
    ensures SourceCurrent(Applied(c', ar, plan), o')
  {
    var name := o'.src.name;
    if name in SourceNames(c) {
      var i :| 0 <= i < |c.sources| && c.sources[i].src.name == name;
      assert c.sources[i] in c.sources;
      KnownIsCurrent(ar, c.sources[i], c', plan, o');
    } else {
      NothingOf(c, ar, name);
      SourceIsCycled(c', ar, plan, o');
      NewIsCurrent(ar, o', Applied(c', ar, plan));
    }
  }

  lemma {:induction false} KnownIsCurrent(ar: Archive, o: Observed, c': Corpus, plan: seq<Action>, o': Observed)
    requires Orderly(c', ar) && IsPlan(c', ar, plan) && o' in c'.sources && Readable(o')
    requires SourceEvolves(o, o') && SourceCurrent(ar, o) && Tidy(Applied(c', ar, plan).index)
    ensures SourceCurrent(Applied(c', ar, plan), o')
  {
    SourceIsCycled(c', ar, plan, o');
    if IsChange(ForSource(ar, o')) {
      CycledIsCurrent(ar, o, o', Applied(c', ar, plan));
    } else {
      SkippedIsCurrent(ar, o, o', Applied(c', ar, plan));
    }
  }

  lemma {:induction false} NothingOf(c: Corpus, ar: Archive, name: string)
    requires Current(c, ar) && name !in SourceNames(c) && name != ""
    ensures name !in ar.watermarks && Listed(ar.index, name) == map[]
  {
    forall k | k in ar.index ensures ar.index[k].source != name { assert !Stale(c, k, ar.index[k]); }
  }

  // --------------------------------------------------------------- every run

  /** One cycle: the files found, and the plan in the order it is carried out. */
  datatype Visit = Visit(corpus: Corpus, plan: seq<Action>)

  const EmptyArchive := Archive(map[], map[])

  function Reached(visits: seq<Visit>): Archive {
    if visits == [] then EmptyArchive
    else
      var v := visits[|visits| - 1];
      Applied(v.corpus, Reached(visits[..|visits| - 1]), v.plan)
  }

  /** Every cycle finds proper files that evolved from those of the one
      before, and carries out its plan in some order. */
  ghost predicate Lawful(visits: seq<Visit>) {
    visits != [] ==>
      && Lawful(visits[..|visits| - 1])
      && var v, ar := visits[|visits| - 1], Reached(visits[..|visits| - 1]);
         && Proper(v.corpus) && IsPlan(v.corpus, ar, v.plan)
         && (|visits| > 1 ==> Evolves(visits[|visits| - 2].corpus, v.corpus))
  }

  lemma {:induction false} CycleIsCurrent(c: Corpus, ar: Archive, c': Corpus, plan: seq<Action>)
    requires Current(c, ar) && Proper(c') && IsPlan(c', ar, plan) && Evolves(c, c')
    ensures Current(c', Applied(c', ar, plan))
  {
    var ar', w := Applied(c', ar, plan), ApplyAll(c', ar.index, Work(ar, map[], {}, {}), plan);
    StillOrderly(c, ar, c');
    AlongThePlan(c', ar, plan);
    forall k | k in ar'.index ensures TidyAt(k, ar'.index[k]) && !Stale(c', k, ar'.index[k]) {
      NothingStaleAfter(c', ar, plan, w, k);
    }
    PM.WatermarksAreConfigured(c', ar, plan);
    forall f | f in c'.sessions ensures SessionCurrent(c', ar', f) { SessionsAreCurrent(c, ar, c', plan, f); }
    forall o | o in c'.sources ensures SourceCurrent(ar', o) { SourcesAreCurrent(c, ar, c', plan, o); }
  }

  /** From an empty archive, over any number of cycles, each carried out in any
      order, with files that come, grow and go: the archive then holds, for each
      session file, its full parse, for each source exactly the sessions of one pass
      over all its records with the watermark of a full parse, and nothing else. */
  lemma {:induction false} EveryRunIsCurrent(visits: seq<Visit>)
    requires visits != [] && Lawful(visits)
    ensures Current(visits[|visits| - 1].corpus, Reached(visits))
  {
    var front, v := visits[..|visits| - 1], visits[|visits| - 1];
    if front == [] {
      CycleIsCurrent(v.corpus.(sessions := [], sources := []), EmptyArchive, v.corpus, v.plan);
    } else {
      EveryRunIsCurrent(front);
      assert front[|front| - 1] == visits[|visits| - 2];
      CycleIsCurrent(front[|front| - 1].corpus, Reached(front), v.corpus, v.plan);
    }
  }
}
