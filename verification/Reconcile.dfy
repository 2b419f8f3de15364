/** The reconcile loop: `ComputePlan` diffs the files against the index and
    `ApplyPlan` carries the plan out (internal/conversations/provider.go:279-910). */
module Reconcile {
  import opened Prelude
  import opened Lines
  import opened Ingest
  import opened IngestDelta
  import SI = SessionIndexing
  import SessionParser

  /** A session file; its name gives the session id. */
  datatype SessionFile = SessionFile(id: string, data: Bytes, mtime: Time)

  /** An ingest source with its files. */
  datatype Observed = Observed(src: Source, files: seq<File>)

  datatype Corpus = Corpus(
    decode: SessionParser.Decoder, maxTurnLen: nat, sessions: seq<SessionFile>, sources: seq<Observed>)

  datatype Archive = Archive(index: Index, watermarks: map<string, Watermark>)

  datatype Action =
    | CreateSession(file: SessionFile)
    | UpdateSession(file: SessionFile)
    | SkipSession(file: SessionFile)
    | CreateSource(source: Observed)
    | UpdateSource(source: Observed)
    | SkipSource(source: Observed)
    | Delete(id: string)

  predicate IsChange(a: Action) { !a.SkipSession? && !a.SkipSource? }

  // ------------------------------------------------------------------ the plan

  function Gap(a: Time, b: Time): nat { if a < b then b - a else a - b }

  /** `isDrift`. */
  predicate SessionDrift(e: Entry, f: SessionFile) {
    e.session.size != |f.data| || Gap(e.session.mtime, f.mtime) > SI.TWO_SECONDS
  }

  /** `isIngestDrift`, used only without a watermark. */
  predicate LegacyDrift(listed: Index, files: seq<File>) {
    exists k :: k in listed &&
      (listed[k].session.size != TotalSize(files) || Gap(listed[k].session.mtime, LatestMtime(files)) > SI.TWO_SECONDS)
  }

  /** `ingestDrift`. */
  predicate SourceDrift(listed: Index, wm: Option<Watermark>, files: seq<File>) {
    match wm
    case Some(w) => Drifted(w, files) || !IndexMatches(w.sessions, listed)
    case None => LegacyDrift(listed, files)
  }

  /** The indexed sessions of one source. */
  function Listed(idx: Index, name: string): Index { map k | k in idx && idx[k].source == name :: idx[k] }

  function WatermarkOf(ar: Archive, name: string): Option<Watermark> {
    if name in ar.watermarks then Some(ar.watermarks[name]) else None
  }

  function ForSession(idx: Index, f: SessionFile): Action {
    if f.id !in idx then CreateSession(f)
    else if SessionDrift(idx[f.id], f) then UpdateSession(f)
    else SkipSession(f)
  }

  function ForSource(ar: Archive, o: Observed): Action {
    Decide(Listed(ar.index, o.src.name), WatermarkOf(ar, o.src.name), o)
  }

  function Decide(listed: Index, wm: Option<Watermark>, o: Observed): Action {
    if listed == map[] then CreateSource(o)
    else if SourceDrift(listed, wm, o.files) then UpdateSource(o)
    else SkipSource(o)
  }

  function SessionIds(c: Corpus): set<string> { set f | f in c.sessions :: f.id }

  function SourceNames(c: Corpus): set<string> {
    set i | 0 <= i < |c.sources| :: c.sources[i].src.name
  }

  predicate Stale(c: Corpus, k: string, e: Entry) {
    if e.source == "" then k !in SessionIds(c) else e.source !in SourceNames(c)
  }

  ghost predicate Wanted(c: Corpus, ar: Archive, a: Action) {
    match a
    case CreateSession(f) => f in c.sessions && a == ForSession(ar.index, f)
    case UpdateSession(f) => f in c.sessions && a == ForSession(ar.index, f)
    case SkipSession(f) => f in c.sessions && a == ForSession(ar.index, f)
    case CreateSource(o) => o in c.sources && a == ForSource(ar, o)
    case UpdateSource(o) => o in c.sources && a == ForSource(ar, o)
    case SkipSource(o) => o in c.sources && a == ForSource(ar, o)
    case Delete(k) => k in ar.index && Stale(c, k, ar.index[k])
  }

  ghost predicate NoRepeats<T>(s: seq<T>) { forall i, j :: 0 <= i < j < |s| ==> s[i] != s[j] }

  /** The plan holds each wanted action once, in any order. */
  ghost predicate IsPlan(c: Corpus, ar: Archive, plan: seq<Action>) {
    NoRepeats(plan) && forall a :: a in plan <==> Wanted(c, ar, a)
  }

  // ------------------------------------------------------------------ applying

  function ConfigFor(c: Corpus, f: SessionFile): SessionParser.Config {
    SessionParser.Config(c.decode, f.id, c.maxTurnLen)
  }

  function FullEntry(c: Corpus, f: SessionFile): Entry { Entry("", "", SI.FullIndex(ConfigFor(c, f), f.data, f.mtime)) }

  /** An update resumes from the recorded watermark where it can. */
  function UpdatedEntry(c: Corpus, idx: Index, f: SessionFile): Entry {
    if f.id in idx && SI.Resumable(f.data, f.mtime, idx[f.id].session)
    then idx[f.id].(session := SI.ResumedIndex(ConfigFor(c, f), f.data, f.mtime, idx[f.id].session))
    else FullEntry(c, f)
  }

  /** Delta first, full re-parse otherwise; start is the index at the beginning of
      the cycle. A full re-parse without files fails and changes nothing. */
  function ApplySource(start: Index, ar: Archive, o: Observed): Archive {
    var wm := WatermarkOf(ar, o.src.name);
    if Usable(o.src, ar.index, o.files, wm) then Recorded(ar, o, Delta(o.src, ar.index, o.files, wm.value))
    else if o.files == [] then ar
    else Recorded(ar, o, FullPruning(o.src, ar.index, IdsOf(o.src, start), o.files))
  }

  function Recorded(ar: Archive, o: Observed, s: State): Archive {
    Archive(s.index, if s.watermark.Some? then ar.watermarks[o.src.name := s.watermark.value] else ar.watermarks)
  }

  /** Ingest actions change the archive at once; session upserts and deletes are
      batched until the loop is over. */
  datatype Work = Work(archive: Archive, upserts: Index, deletes: set<string>, live: set<string>)

  function ApplyOne(c: Corpus, start: Index, w: Work, a: Action): Work {
    match a
    case CreateSession(f) => w.(upserts := w.upserts[f.id := FullEntry(c, f)])
    case UpdateSession(f) => w.(upserts := w.upserts[f.id := UpdatedEntry(c, w.archive.index, f)])
    case SkipSession(_) => w
    case CreateSource(o) => w.(archive := ApplySource(start, w.archive, o), live := w.live + {o.src.name})
    case UpdateSource(o) => w.(archive := ApplySource(start, w.archive, o), live := w.live + {o.src.name})
    case SkipSource(o) => w.(live := w.live + {o.src.name})
    case Delete(k) => w.(deletes := w.deletes + {k})
  }

  function ApplyAll(c: Corpus, start: Index, w: Work, plan: seq<Action>): Work {
    if plan == [] then w
    else ApplyOne(c, start, ApplyAll(c, start, w, plan[..|plan| - 1]), plan[|plan| - 1])
  }

  function Finish(w: Work): Archive {
    Archive((w.archive.index + w.upserts) - w.deletes,
            map n | n in w.archive.watermarks && n in w.live :: w.archive.watermarks[n])
  }

  function Applied(c: Corpus, ar: Archive, plan: seq<Action>): Archive {
    Finish(ApplyAll(c, ar.index, Work(ar, map[], {}, {}), plan))
  }

  // --------------------------------------------------------------- the provider

  class Provider {
    var index: Index
    var watermarks: map<string, Watermark>

    ghost function Value(): Archive
      reads this
    {
      Archive(index, watermarks)
    }

    constructor (ar: Archive)
      ensures Value() == ar
    {
      index, watermarks := ar.index, ar.watermarks;
    }

    method PlanSession(f: SessionFile) returns (a: Action)
      ensures a == ForSession(index, f)
    {
      if f.id !in index {
        a := CreateSession(f);
      } else {
        var diff := Gap(index[f.id].session.mtime, f.mtime);
        a := if index[f.id].session.size != |f.data| || diff > SI.TWO_SECONDS then UpdateSession(f) else SkipSession(f);
      }
    }

    method PlanSource(o: Observed) returns (a: Action)
      ensures a == ForSource(Value(), o)
    {
      var indexed := Listed(index, o.src.name);
      if indexed == map[] { return CreateSource(o); }
      var drift: bool;
      if o.src.name in watermarks {
        drift := WatermarkDrift(watermarks[o.src.name], o.files);
        if !drift {
          var matches := IndexMatchesWatermark(watermarks[o.src.name].sessions, indexed);
          drift := !matches;
        }
      } else {
        drift := LegacyDrift(indexed, o.files);
      }
      a := if drift then UpdateSource(o) else SkipSource(o);
    }

    /** The three passes of `ComputePlan`, before its final sort. */
    method ComputePlan(c: Corpus) returns (plan: seq<Action>)
      requires NoRepeats(c.sessions) && NoRepeats(c.sources)
      ensures IsPlan(c, Value(), plan)
    {
      plan := [];
      for i := 0 to |c.sessions|
        invariant SessionPart(c, Value(), plan, i)
      {
        var a := PlanSession(c.sessions[i]);
        SessionPartGrows(c, Value(), plan, i, a);
        plan := plan + [a];
      }
      ghost var sessions := plan;
      for i := 0 to |c.sources|
        invariant |plan| == |c.sessions| + i && sessions <= plan && |sessions| == |c.sessions|
        invariant forall j :: |c.sessions| <= j < |plan| ==> plan[j] == ForSource(Value(), c.sources[j - |c.sessions|])
      {
        var a := PlanSource(c.sources[i]);
        plan := plan + [a];
      }
      BothParts(c, Value(), sessions, plan);
      ghost var files := plan;
      var todo := index.Keys;
      while todo != {}
        invariant todo <= index.Keys && DeletePart(c, Value(), files, plan, todo)
        decreases todo
      {
        var k :| k in todo;
        var stale := if index[k].source == "" then k !in SessionIds(c) else index[k].source !in SourceNames(c);
        DeletePartGrows(c, Value(), files, plan, todo, k);
        if stale { plan := plan + [Delete(k)]; }
        todo := todo - {k};
      }
      AllParts(c, Value(), files, plan);
    }

    /** The action loop and the batched commit after it. */
    method ApplyPlan(c: Corpus, plan: seq<Action>)
      modifies this
      ensures Value() == Applied(c, old(Value()), plan)
    {
      var start := index;
      var upserts: Index, deletes: set<string>, live: set<string> := map[], {}, {};
      ghost var w0 := Work(Value(), map[], {}, {});
      for i := 0 to |plan|
        invariant Work(Value(), upserts, deletes, live) == ApplyAll(c, start, w0, plan[..i])
      {
        assert plan[..i + 1][..i] == plan[..i];
        match plan[i]
        case CreateSession(f) =>
          var e := IndexNew(c, f);
          upserts := upserts[f.id := e];
        case UpdateSession(f) =>
          var e := IndexUpdated(c, f);
          upserts := upserts[f.id := e];
        case SkipSession(_) =>
        case CreateSource(o) =>
          live := live + {o.src.name};
          IngestSource(start, o);
        case UpdateSource(o) =>
          live := live + {o.src.name};
          IngestSource(start, o);
        case SkipSource(o) =>
          live := live + {o.src.name};
        case Delete(k) =>
          deletes := deletes + {k};
      }
      assert plan[..|plan|] == plan;
      index := (index + upserts) - deletes;
      watermarks := map n | n in watermarks && n in live :: watermarks[n];
    }

    method IndexNew(c: Corpus, f: SessionFile) returns (e: Entry)
      ensures e == FullEntry(c, f)
    {
      var session := SI.IndexSession(ConfigFor(c, f), f.data, f.mtime);
      e := Entry("", "", session);
    }

    method IndexUpdated(c: Corpus, f: SessionFile) returns (e: Entry)
      ensures e == UpdatedEntry(c, index, f)
    {
      if f.id in index {
        var session := SI.IndexSessionIncremental(ConfigFor(c, f), f.data, f.mtime, index[f.id].session);
        if session.Some? { return index[f.id].(session := session.value); }
      }
      e := IndexNew(c, f);
    }

    method IngestSource(start: Index, o: Observed)
      modifies this
      ensures Value() == ApplySource(start, old(Value()), o)
    {
      var wm := if o.src.name in watermarks then Some(watermarks[o.src.name]) else None;
      var r := ApplyIngestSourceDelta(o.src, index, o.files, wm);
      if r.None? {
        r := ApplyIngestSource(o.src, index, IdsOf(o.src, start), o.files);
      }
      if r.Some? {
        index := r.value.index;
        if r.value.watermark.Some? { watermarks := watermarks[o.src.name := r.value.watermark.value]; }
      }
    }
  }

  // ---------------------------------------------- what the passes have planned

  ghost predicate SessionPart(c: Corpus, ar: Archive, plan: seq<Action>, i: nat) {
    |plan| == i <= |c.sessions| && forall j :: 0 <= j < i ==> plan[j] == ForSession(ar.index, c.sessions[j])
  }

  lemma SessionPartGrows(c: Corpus, ar: Archive, plan: seq<Action>, i: nat, a: Action)
    requires SessionPart(c, ar, plan, i) && i < |c.sessions| && a == ForSession(ar.index, c.sessions[i])
    ensures SessionPart(c, ar, plan + [a], i + 1)
  {
  }

  /** After the first two passes: every wanted action but the deletes. */
  ghost predicate FilePart(c: Corpus, ar: Archive, plan: seq<Action>) {
    NoRepeats(plan) && forall a :: a in plan <==> Wanted(c, ar, a) && !a.Delete?
  }

  lemma {:induction false} BothParts(c: Corpus, ar: Archive, sessions: seq<Action>, plan: seq<Action>)
    requires NoRepeats(c.sessions) && NoRepeats(c.sources)
    requires SessionPart(c, ar, sessions, |c.sessions|) && sessions <= plan && |plan| == |c.sessions| + |c.sources|
    requires forall j :: |c.sessions| <= j < |plan| ==> plan[j] == ForSource(ar, c.sources[j - |c.sessions|])
    ensures FilePart(c, ar, plan)
  {
    var n := |c.sessions|;
    assert forall j :: 0 <= j < n ==> plan[j] == sessions[j];
    forall a | Wanted(c, ar, a) && !a.Delete? ensures a in plan {
      if a.CreateSession? || a.UpdateSession? || a.SkipSession? {
        var j :| 0 <= j < n && c.sessions[j] == a.file;
        assert plan[j] == a;
      } else {
        var j :| 0 <= j < |c.sources| && c.sources[j] == a.source;
        assert plan[n + j] == a;
      }
    }
  }

  ghost predicate DeletePart(c: Corpus, ar: Archive, files: seq<Action>, plan: seq<Action>, todo: set<string>) {
    && NoRepeats(plan)
    && forall a :: a in plan <==> a in files || (a.Delete? && a.id !in todo && Wanted(c, ar, a))
  }

  lemma {:induction false} DeletePartGrows(
    c: Corpus, ar: Archive, files: seq<Action>, plan: seq<Action>, todo: set<string>, k: string)
    requires FilePart(c, ar, files) && DeletePart(c, ar, files, plan, todo) && k in todo && k in ar.index
    ensures DeletePart(c, ar, files, if Stale(c, k, ar.index[k]) then plan + [Delete(k)] else plan, todo - {k})
  {
    assert Delete(k) !in plan;
    assert Wanted(c, ar, Delete(k)) <==> Stale(c, k, ar.index[k]);
  }

  lemma AllParts(c: Corpus, ar: Archive, files: seq<Action>, plan: seq<Action>)
    requires FilePart(c, ar, files) && DeletePart(c, ar, files, plan, {})
    ensures IsPlan(c, ar, plan)
  {
  }
}
