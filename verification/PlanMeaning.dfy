/** What a plan says about the files, and what an idle plan guarantees. */
module PlanMeaning {
  import opened Prelude
  import opened Lines
  import opened Ingest
  import opened IngestDelta
  import opened IngestFiles
  import opened IngestTheorems
  import opened IngestCrashes
  import opened Reconcile
  import S = IngestSessions
  import SI = SessionIndexing

  predicate FarApart(a: Time, b: Time) { a > b + 2_000_000_000 || b > a + 2_000_000_000 }

  // --------------------------------------------------------- what is planned

  /** A session file is created when it is not indexed, updated when its size is not
      the recorded one or its mtime is more than two seconds away, and skipped
      otherwise. */
  lemma {:induction false} SessionsPlanned(c: Corpus, ar: Archive, plan: seq<Action>, f: SessionFile)
    requires IsPlan(c, ar, plan) && f in c.sessions
    ensures CreateSession(f) in plan <==> f.id !in ar.index
    ensures UpdateSession(f) in plan <==>
            && f.id in ar.index
            && (ar.index[f.id].session.size != |f.data| || FarApart(ar.index[f.id].session.mtime, f.mtime))
    ensures SkipSession(f) in plan <==>
            && f.id in ar.index
            && ar.index[f.id].session.size == |f.data| && !FarApart(ar.index[f.id].session.mtime, f.mtime)
  {
    assert CreateSession(f) in plan <==> Wanted(c, ar, CreateSession(f));
    assert UpdateSession(f) in plan <==> Wanted(c, ar, UpdateSession(f));
    assert SkipSession(f) in plan <==> Wanted(c, ar, SkipSession(f));
  }

  ghost predicate HasSessions(ar: Archive, name: string) { exists k :: k in ar.index && ar.index[k].source == name }

  /** The files are not those the watermark consumed. */
  predicate FilesDiffer(wm: Watermark, files: seq<File>) {
    || |files| != |wm.files|
    || exists i :: 0 <= i < |files| && (files[i].name !in wm.files || wm.files[files[i].name].size != |files[i].data|)
  }

  /** A session the watermark recorded is no longer indexed for the source, or with
      fewer turns. */
  predicate TurnsMissing(wm: Watermark, ar: Archive, name: string) {
    exists k :: k in wm.sessions &&
      (k !in ar.index || ar.index[k].source != name || ar.index[k].session.turnCount < wm.sessions[k])
  }

  /** Without a watermark: a session's stamp is not the aggregate of the files. */
  predicate StampDiffers(ar: Archive, name: string, files: seq<File>) {
    exists k :: k in ar.index && ar.index[k].source == name &&
      (ar.index[k].session.size != TotalSize(files) || FarApart(ar.index[k].session.mtime, LatestMtime(files)))
  }

  ghost predicate SourceChanged(ar: Archive, o: Observed) {
    if o.src.name in ar.watermarks
    then FilesDiffer(ar.watermarks[o.src.name], o.files) || TurnsMissing(ar.watermarks[o.src.name], ar, o.src.name)
    else StampDiffers(ar, o.src.name, o.files)
  }

  lemma {:induction false} ListedIffSessions(ar: Archive, name: string)
    ensures Listed(ar.index, name) == map[] <==> !HasSessions(ar, name)
  {
    if k :| k in ar.index && ar.index[k].source == name { assert k in Listed(ar.index, name); }
    if k :| k in Listed(ar.index, name) { assert k in ar.index && ar.index[k].source == name; }
  }

  lemma {:induction false} DriftIffChanged(ar: Archive, o: Observed)
    ensures SourceDrift(Listed(ar.index, o.src.name), WatermarkOf(ar, o.src.name), o.files) <==> SourceChanged(ar, o)
  {
    var listed := Listed(ar.index, o.src.name);
    if o.src.name in ar.watermarks {
      var wm := ar.watermarks[o.src.name];
      DriftedIffDiffer(wm, o.files);
      MatchesIffNotMissing(wm, ar, o.src.name);
    } else {
      if k :| k in listed && (listed[k].session.size != TotalSize(o.files) ||
              Gap(listed[k].session.mtime, LatestMtime(o.files)) > SI.TWO_SECONDS) {
        assert k in ar.index && ar.index[k].source == o.src.name;
      }
      if k :| k in ar.index && ar.index[k].source == o.src.name &&
              (ar.index[k].session.size != TotalSize(o.files) || FarApart(ar.index[k].session.mtime, LatestMtime(o.files))) {
        assert k in listed;
      }
    }
  }

  lemma {:induction false} DriftedIffDiffer(wm: Watermark, files: seq<File>)
    ensures Drifted(wm, files) <==> FilesDiffer(wm, files)
  {
    if f :| f in files && (f.name !in wm.files || wm.files[f.name].size != |f.data|) {
      var i :| 0 <= i < |files| && files[i] == f;
      assert files[i].name !in wm.files || wm.files[files[i].name].size != |files[i].data|;
    }
    if i :| 0 <= i < |files| && (files[i].name !in wm.files || wm.files[files[i].name].size != |files[i].data|) {
      assert files[i] in files;
    }
  }

  lemma {:induction false} MatchesIffNotMissing(wm: Watermark, ar: Archive, name: string)
    ensures IndexMatches(wm.sessions, Listed(ar.index, name)) <==> !TurnsMissing(wm, ar, name)
  {
    var listed := Listed(ar.index, name);
    assert forall k :: k in listed <==> k in ar.index && ar.index[k].source == name;
  }

  /** A source is created when none of its sessions is indexed, updated when its
      files or its indexed sessions are not what was recorded, skipped otherwise. */
  lemma {:induction false} SourcesPlanned(c: Corpus, ar: Archive, plan: seq<Action>, o: Observed)
    requires IsPlan(c, ar, plan) && o in c.sources
    ensures CreateSource(o) in plan <==> !HasSessions(ar, o.src.name)
    ensures UpdateSource(o) in plan <==> HasSessions(ar, o.src.name) && SourceChanged(ar, o)
    ensures SkipSource(o) in plan <==> HasSessions(ar, o.src.name) && !SourceChanged(ar, o)
  {
    ListedIffSessions(ar, o.src.name);
    DriftIffChanged(ar, o);
    assert CreateSource(o) in plan <==> Wanted(c, ar, CreateSource(o));
    assert UpdateSource(o) in plan <==> Wanted(c, ar, UpdateSource(o));
    assert SkipSource(o) in plan <==> Wanted(c, ar, SkipSource(o));
  }

  /** Exactly the entries nothing configured accounts for are deleted. */
  lemma {:induction false} DeletesPlanned(c: Corpus, ar: Archive, plan: seq<Action>, k: string)
    requires IsPlan(c, ar, plan)
    ensures Delete(k) in plan <==>
            && k in ar.index
            && (if ar.index[k].source == "" then forall f :: f in c.sessions ==> f.id != k
                else forall o :: o in c.sources ==> o.src.name != ar.index[k].source)
  {
    assert Delete(k) in plan <==> Wanted(c, ar, Delete(k));
    if k in ar.index && ar.index[k].source != "" {
      var name := ar.index[k].source;
      if name in SourceNames(c) {
        var i :| 0 <= i < |c.sources| && c.sources[i].src.name == name;
        assert c.sources[i] in c.sources;
      }
      if o :| o in c.sources && o.src.name == name {
        var i :| 0 <= i < |c.sources| && c.sources[i] == o;
      }
    }
  }

  // ------------------------------------------------------- what idle means

  ghost predicate Idle(plan: seq<Action>) { forall a :: a in plan ==> !IsChange(a) }

  /** The entry is the full parse of an earlier state of the file. */
  ghost predicate FromEarlier(c: Corpus, e: Entry, f: SessionFile) {
    exists was, t :: was <= f.data && e.session == SI.FullIndex(ConfigFor(c, f), was, t)
  }

  /** The other half of convergence: if the plan has nothing to do, every session
      entry is the full parse of its file as it is now. */
  lemma {:induction false} IdleSessionsAreCurrent(c: Corpus, ar: Archive, plan: seq<Action>, f: SessionFile)
    requires IsPlan(c, ar, plan) && Idle(plan) && f in c.sessions
    requires f.id in ar.index ==> FromEarlier(c, ar.index[f.id], f)
    ensures f.id in ar.index
    ensures ar.index[f.id].session.(mtime := f.mtime) == SI.FullIndex(ConfigFor(c, f), f.data, f.mtime)
    ensures !FarApart(ar.index[f.id].session.mtime, f.mtime)
  {
    SessionsPlanned(c, ar, plan, f);
    assert CreateSession(f) !in plan && UpdateSession(f) !in plan;
    var was, t :| was <= f.data && ar.index[f.id].session == SI.FullIndex(ConfigFor(c, f), was, t);
    assert |was| == |f.data| && was == f.data;
  }

  lemma {:induction false} UnchangedHasNothingPast(prev: seq<File>, files: seq<File>, wm: Watermark, i: nat)
    requires Sorted(prev) && Sorted(files) && Grows(prev, files) && wm.files == FullMarks(prev)
    requires i < |files| && !FilesDiffer(wm, files)
    ensures PastMark(FullMarks(prev), files[i]) == []
  {
    FullMarksAre(prev);
    assert files[i].name in wm.files && wm.files[files[i].name].size == |files[i].data|;
    var p, q := NameMoves(prev, files, files[i].name);
    SameName(files, q, i);
    assert |prev[p].data| == |files[i].data| && prev[p].data == files[i].data;
    OffsetOf(prev, p, files[i]);
    PastIffBehind(prev, files, i);
  }

  /** And so for sources: while the watermark stands for an earlier snapshot of files
      that only grew and the index for the same snapshot, an idle plan means that
      every session is what a full parse of the files gives now. */
  lemma {:induction false} IdleSourcesAreCurrent(
    c: Corpus, ar: Archive, plan: seq<Action>, o: Observed, prev: seq<File>, k: string)
    requires IsPlan(c, ar, plan) && Idle(plan) && o in c.sources && o.src.name in ar.watermarks
    requires Snapshot(o.src, prev) && Snapshot(o.src, o.files) && Grows(prev, o.files)
    requires CaughtUp(o.src, State(ar.index, Some(ar.watermarks[o.src.name])), prev)
    requires S.At(ar.index, k) == S.Reference(FullItems(o.src, prev), k)
    ensures S.At(ar.index, k) == S.At(Full(o.src, ar.index, o.files).index, k)
  {
    var wm, marks := ar.watermarks[o.src.name], FullMarks(prev);
    SourcesPlanned(c, ar, plan, o);
    assert CreateSource(o) !in plan && UpdateSource(o) !in plan;
    forall i | 0 <= i < |o.files| ensures PastMark(marks, o.files[i]) == [] {
      UnchangedHasNothingPast(prev, o.files, wm, i);
    }
    NothingNewIsInOrder(marks, o.files);
    NothingPast(Accepted(o.src.env), marks, o.files);
    InOrderItems(o.src, prev, o.files);
    assert FullItems(o.src, prev) + [] == FullItems(o.src, prev);
    FullAt(o.src, ar.index, o.files, k);
  }

  // ------------------------------------------------------------- aggregates

  /** The aggregate mtime is the latest of the files', and the aggregate size the
      length of all their bytes. */
  lemma {:induction false} LatestIsGreatest(files: seq<File>)
    ensures forall i :: 0 <= i < |files| ==> files[i].mtime <= LatestMtime(files)
    ensures LatestMtime(files) == 0 || exists i :: 0 <= i < |files| && files[i].mtime == LatestMtime(files)
  {
    if files != [] {
      var front := files[..|files| - 1];
      LatestIsGreatest(front);
      assert forall i :: 0 <= i < |front| ==> front[i] == files[i];
      if LatestMtime(files) == LatestMtime(front) && LatestMtime(front) != 0 {
        var i :| 0 <= i < |front| && front[i].mtime == LatestMtime(front);
        assert files[i].mtime == LatestMtime(files);
      } else if LatestMtime(files) != 0 {
        assert files[|files| - 1].mtime == LatestMtime(files);
      }
    }
  }

  function AllBytes(files: seq<File>): Bytes {
    if files == [] then [] else files[0].data + AllBytes(files[1..])
  }

  lemma {:induction false} TotalIsLength(files: seq<File>)
    ensures TotalSize(files) == |AllBytes(files)|
  {
    if files != [] {
      TotalIsLength(files[..|files| - 1]);
      BytesOfMore(files[..|files| - 1], files[|files| - 1]);
      assert files == files[..|files| - 1] + [files[|files| - 1]];
    }
  }

  lemma {:induction false} BytesOfMore(files: seq<File>, f: File)
    ensures AllBytes(files + [f]) == AllBytes(files) + f.data
  {
    if files == [] {
      assert [f][1..] == [] && [] + [f] == [f];
      assert AllBytes([f]) == f.data + AllBytes([]);
    } else {
      BytesOfMore(files[1..], f);
      assert (files + [f])[1..] == files[1..] + [f];
    }
  }

  // -------------------------------------------- what a cycle leaves on record

  /** After a full parse every session of the source is stamped with the aggregate of
      the files: even if the watermark is lost, the next plan finds nothing to do. */
  lemma {:induction false} StampsAreAggregates(src: Source, idx: Index, files: seq<File>, ar: Archive)
    requires ar.index == Full(src, idx, files).index && src.name !in ar.watermarks
    ensures forall k :: k in ar.index && ar.index[k].source == src.name ==>
              ar.index[k].session.size == TotalSize(files) && ar.index[k].session.mtime == LatestMtime(files)
    ensures !SourceChanged(ar, Observed(src, files))
  {
    forall k | k in ar.index && ar.index[k].source == src.name
      ensures ar.index[k].session.size == TotalSize(files) && ar.index[k].session.mtime == LatestMtime(files)
    {
      FullStamps(src, idx, files, k);
    }
  }

  lemma {:induction false} FullStamps(src: Source, idx: Index, files: seq<File>, k: string)
    ensures var after := Full(src, idx, files).index;
            k in after && after[k].source == src.name ==>
              after[k].session.size == TotalSize(files) && after[k].session.mtime == LatestMtime(files)
  {
    var parsed := Parsed(AddAll(map[], map[], FullItems(src, files)), files);
    assert k in parsed ==> parsed[k].session.size == TotalSize(files) && parsed[k].session.mtime == LatestMtime(files);
    assert k in Full(src, idx, files).index && k !in parsed ==> k in idx && k !in IdsOf(src, idx);
  }

  /** A delta touches exactly the sessions that gain a turn, and stamps them with the
      aggregate too. */
  lemma {:induction false} DeltaTouches(src: Source, idx: Index, files: seq<File>, wm: Watermark, k: string)
    ensures var after := Delta(src, idx, files, wm).index;
            && (k in idx ==> k in after)
            && (k in after && k in idx && |after[k].session.turns| == |idx[k].session.turns| ==> after[k] == idx[k])
            && (k in after && (k !in idx || |after[k].session.turns| != |idx[k].session.turns|) ==>
                  after[k].session.size == TotalSize(files) && after[k].session.mtime == LatestMtime(files))
  {
    var items := Collect(Accepted(src.env), Past(wm.files), files);
    S.SessionOf(idx, map[], items, k);
    if S.FirstOf(items, k).Some? && k in idx {
      AddedAreTurns(Seed(idx, k, S.FirstOf(items, k).value.source), k, items);
    }
  }

  lemma {:induction false} AddedAreTurns(s: Accum, k: string, items: seq<Item>)
    ensures var t := S.Grown(s, k, items);
            |t.entry.session.turns| == |s.entry.session.turns| + t.added - s.added && t.added >= s.added
    decreases |items|
  {
    if items != [] { AddedAreTurns(if items[0].key == k then AddItem(s, items[0]) else s, k, items[1..]); }
  }

  /** The watermark records every session of the source with its turns. */
  ghost predicate OnRecord(src: Source, s: State) {
    && s.watermark.Some?
    && forall k :: k in s.index && s.index[k].source == src.name ==>
         k in s.watermark.value.sessions && s.watermark.value.sessions[k] == s.index[k].session.turnCount
  }

  lemma {:induction false} FullIsOnRecord(src: Source, idx: Index, files: seq<File>)
    ensures OnRecord(src, Full(src, idx, files))
  {
  }

  lemma {:induction false} DeltaStaysOnRecord(src: Source, idx: Index, files: seq<File>, wm: Watermark)
    requires OnRecord(src, State(idx, Some(wm)))
    ensures OnRecord(src, Delta(src, idx, files, wm))
  {
    var items := Collect(Accepted(src.env), Past(wm.files), files);
    var sessions, after := AddAll(idx, map[], items), Delta(src, idx, files, wm);
    var batch := Touched(sessions, files);
    forall k | k in after.index && after.index[k].source == src.name
      ensures k in after.watermark.value.sessions && after.watermark.value.sessions[k] == after.index[k].session.turnCount
    {
      S.SessionOf(idx, map[], items, k);
      if k in batch {
        S.CountedWhenGrown(Seed(idx, k, S.FirstOf(items, k).value.source), k, items);
      } else {
        assert after.index[k] == idx[k];
      }
    }
  }

  /** Every cycle, delta or full, leaves the source's sessions on record. */
  lemma {:induction false} CycleIsOnRecord(src: Source, s: State, files: seq<File>)
    requires s.watermark.Some? ==> OnRecord(src, s)
    ensures OnRecord(src, Cycle(src, s, files))
  {
    if Usable(src, s.index, files, s.watermark) {
      DeltaStaysOnRecord(src, s.index, files, s.watermark.value);
    } else {
      FullIsOnRecord(src, s.index, files);
    }
  }

  /** So a session of the source that is lost from the index, or cut short, is
      noticed: the watermark is not used and the source is planned again. */
  lemma {:induction false} LostSessionIsNoticed(src: Source, s: State, files: seq<File>, k: string, left: Option<Entry>)
    requires OnRecord(src, s) && k in s.index && s.index[k].source == src.name
    requires left.None? || left.value.session.turnCount < s.index[k].session.turnCount
    ensures var idx := if left.None? then s.index - {k} else s.index[k := left.value];
            && !Usable(src, idx, files, s.watermark)
            && TurnsMissing(s.watermark.value, Archive(idx, map[src.name := s.watermark.value]), src.name)
  {
    assert k in s.watermark.value.sessions;
  }

  /** After an apply only configured sources have a watermark. */
  lemma {:induction false} WatermarksAreConfigured(c: Corpus, ar: Archive, plan: seq<Action>)
    requires IsPlan(c, ar, plan)
    ensures Applied(c, ar, plan).watermarks.Keys <= SourceNames(c)
  {
    LiveAreConfigured(c, ar, Work(ar, map[], {}, {}), plan);
  }

  lemma {:induction false} LiveAreConfigured(c: Corpus, ar: Archive, w: Work, plan: seq<Action>)
    requires w.live <= SourceNames(c) && forall a :: a in plan ==> Wanted(c, ar, a)
    ensures ApplyAll(c, ar.index, w, plan).live <= SourceNames(c)
  {
    if plan != [] {
      var front, a := plan[..|plan| - 1], plan[|plan| - 1];
      LiveAreConfigured(c, ar, w, front);
      assert Wanted(c, ar, a);
      if a.CreateSource? || a.UpdateSource? || a.SkipSource? {
        var i :| 0 <= i < |c.sources| && c.sources[i] == a.source;
        assert a.source.src.name in SourceNames(c);
      }
    }
  }

  // ------------------------------------------------------- a changed mapping

  /** The delta asks for a full parse exactly when there is no watermark, the mapping
      changed, a recorded session is missing or short of turns, a consumed file is
      gone, or a file is shorter than what was consumed of it. */
  lemma {:induction false} NeedsFullIff(src: Source, idx: Index, files: seq<File>, wm: Option<Watermark>)
    ensures !Usable(src, idx, files, wm) <==>
            || wm.None? || wm.value.fingerprint != src.fingerprint
            || (exists k :: k in wm.value.sessions && (k !in idx || idx[k].session.turnCount < wm.value.sessions[k]))
            || (exists name :: name in wm.value.files && forall i :: 0 <= i < |files| ==> files[i].name != name)
            || (exists i :: 0 <= i < |files| && files[i].name in wm.value.files &&
                  |files[i].data| < wm.value.files[files[i].name].offset)
  {
    if wm.Some? {
      forall name ensures name in Names(files) <==> exists i :: 0 <= i < |files| && files[i].name == name {
        if name in Names(files) { var i := PositionOf(files, name); }
        if i :| 0 <= i < |files| && files[i].name == name { assert files[i] in files; }
      }
    }
  }

  /** When the mapping in force is not the one the watermark was recorded under, the
      cycle re-parses everything: session k is what the new mapping makes of all
      records, whatever was indexed before. */
  lemma {:induction false} MappingChangeReparses(src: Source, s: State, files: seq<File>, k: string)
    requires s.watermark.Some? && s.watermark.value.fingerprint != src.fingerprint
    requires k in s.index ==> s.index[k].source == src.name
    ensures S.At(Cycle(src, s, files).index, k) == S.Reference(FullItems(src, files), k)
    ensures CaughtUp(src, Cycle(src, s, files), files)
  {
    FullAt(src, s.index, files, k);
  }
}
