/** Every index the reconcile loop can produce has bounds that enclose its turns,
    so the search pre-filter is right on all of them. */
module Enclosing {
  import opened Prelude
  import opened Lines
  import P = SessionParser
  import SI = SessionIndexing
  import opened Ingest
  import opened IngestDelta
  import S = IngestSessions
  import opened Reconcile
  import opened Search

  // ------------------------------------------------------------ session files

  /** A parse continues from bounds it may only widen, and encloses its own turns. */
  ghost predicate Continues(from: P.Bounds, st: P.State) {
    P.Wider(from, st.head.bounds) && P.Encloses(st.head.bounds, st.turns)
  }

  lemma ConsumeContinues(cfg: P.Config, from: P.Bounds, st: P.State, line: Line)
    requires Continues(from, st)
    ensures Continues(from, P.Consume(cfg, st, line))
  {
    if line.token != [] && cfg.decode(line.token).Some? {
      var body := cfg.decode(line.token).value.body;
      if body.Message? { P.WidenHolds(st.head.bounds, body.timestamp); }
    }
  }

  lemma {:induction false} ParseContinues(cfg: P.Config, head: P.Head, data: Bytes)
    ensures Continues(head.bounds, P.Parse(cfg, head, data))
  {
    forall st: P.State, line: Line | Continues(head.bounds, st) ensures Continues(head.bounds, P.Step(cfg)(st, line)) {
      ConsumeContinues(cfg, head.bounds, st, line);
    }
    FoldKeeps(P.Step(cfg), (st: P.State) => Continues(head.bounds, st), P.Start(head), data, 0);
  }

  lemma {:induction false} KeptAreAmong(indexed: set<string>, turns: seq<Turn>)
    ensures forall t :: t in SI.Kept(indexed, turns) ==> t in turns
  {
    if turns != [] { KeptAreAmong(indexed, turns[..|turns| - 1]); }
  }

  lemma {:induction false} FullEncloses(cfg: P.Config, data: Bytes, mtime: Time)
    ensures var r := SI.FullIndex(cfg, data, mtime); P.Encloses(r.head.bounds, r.turns)
  {
    ParseContinues(cfg, P.NoHead, data);
  }

  /** Resuming keeps the bounds enclosing, whatever uuids the tail repeats. */
  lemma {:induction false} ResumedEncloses(cfg: P.Config, data: Bytes, mtime: Time, prev: SI.Indexed)
    requires SI.Resumable(data, mtime, prev) && P.Encloses(prev.head.bounds, prev.turns)
    ensures var r := SI.ResumedIndex(cfg, data, mtime, prev); P.Encloses(r.head.bounds, r.turns)
  {
    var st := P.Parse(cfg, prev.head, data[prev.offset..]);
    var kept := SI.Kept(SI.Uuids(prev.turns), st.turns);
    ParseContinues(cfg, prev.head, data[prev.offset..]);
    KeptAreAmong(SI.Uuids(prev.turns), st.turns);
    AppendedEncloses(prev.head.bounds, prev.turns, st.head.bounds, st.turns, kept);
  }

  lemma {:induction false} AppendedEncloses(
    a: P.Bounds, before: seq<Turn>, b: P.Bounds, tail: seq<Turn>, kept: seq<Turn>)
    requires P.Encloses(a, before) && P.Wider(a, b) && P.Encloses(b, tail) && forall t :: t in kept ==> t in tail
    ensures P.Encloses(b, SI.Renumber(before + kept))
  {
    var all := before + kept;
    forall i | 0 <= i < |all| && all[i].timestamp > 0 ensures P.Holds(b, all[i].timestamp) {
      if i < |before| {
        assert all[i] == before[i];
      } else {
        assert all[i] in kept;
        var j :| 0 <= j < |tail| && tail[j] == all[i];
      }
    }
    var numbered := SI.Renumber(all);
    forall i | 0 <= i < |numbered| && numbered[i].timestamp > 0 ensures P.Holds(b, numbered[i].timestamp) {
      assert numbered[i].timestamp == all[i].timestamp;
    }
  }

  // ----------------------------------------------------------- ingest sources

  ghost predicate EntryEncloses(e: Entry) { P.Encloses(e.session.head.bounds, e.session.turns) }

  lemma {:induction false} GrownEncloses(s: Accum, k: string, items: seq<Item>)
    requires EntryEncloses(s.entry)
    ensures EntryEncloses(S.Grown(s, k, items).entry)
    decreases |items|
  {
    if items != [] {
      var item := items[0];
      if item.key == k && item.dedup !in s.seen {
        P.WidenHolds(s.entry.session.head.bounds, item.timestamp);
        TurnEncloses(s.entry, item);
      }
      GrownEncloses(if item.key == k then AddItem(s, item) else s, k, items[1..]);
    }
  }

  lemma {:induction false} TurnEncloses(e: Entry, item: Item)
    requires EntryEncloses(e)
    ensures EntryEncloses(AddTurn(e, item))
  {
    P.WidenHolds(e.session.head.bounds, item.timestamp);
    var f := AddTurn(e, item);
    forall i | 0 <= i < |f.session.turns| && f.session.turns[i].timestamp > 0
      ensures P.Holds(f.session.head.bounds, f.session.turns[i].timestamp)
    {
      if i < |e.session.turns| { assert f.session.turns[i] == e.session.turns[i]; }
    }
  }

  lemma {:induction false} SessionsEnclose(existing: Index, items: seq<Item>, k: string)
    requires Enclosed(existing)
    ensures var sessions := AddAll(existing, map[], items); k in sessions ==> EntryEncloses(sessions[k].entry)
  {
    S.SessionOf(existing, map[], items, k);
    var first := S.FirstOf(items, k);
    if first.Some? { GrownEncloses(Seed(existing, k, first.value.source), k, items); }
  }

  /** A delta keeps every session's bounds enclosing, */
  lemma {:induction false} DeltaEncloses(src: Source, idx: Index, files: seq<File>, wm: Watermark)
    requires Enclosed(idx)
    ensures Enclosed(Delta(src, idx, files, wm).index)
  {
    var items := Collect(Accepted(src.env), Past(wm.files), files);
    var sessions, idx' := AddAll(idx, map[], items), Delta(src, idx, files, wm).index;
    forall k | k in idx' ensures EntryEncloses(idx'[k]) {
      SessionsEnclose(idx, items, k);
      assert idx'[k] == if k in Touched(sessions, files) then Stamped(sessions[k].entry, files) else idx[k];
    }
  }

  /** and so does a full parse. */
  lemma {:induction false} FullParseEncloses(src: Source, idx: Index, known: set<string>, files: seq<File>)
    requires Enclosed(idx)
    ensures Enclosed(FullPruning(src, idx, known, files).index)
  {
    var sessions := AddAll(map[], map[], FullItems(src, files));
    var idx' := FullPruning(src, idx, known, files).index;
    forall k | k in idx' ensures EntryEncloses(idx'[k]) {
      SessionsEnclose(map[], FullItems(src, files), k);
      assert idx'[k] == if k in sessions then Stamped(sessions[k].entry, files) else idx[k];
    }
  }

  // -------------------------------------------------------------- whole plans

  ghost predicate WorkEncloses(w: Work) { Enclosed(w.archive.index) && Enclosed(w.upserts) }

  lemma {:induction false} SourceEncloses(start: Index, ar: Archive, o: Observed)
    requires Enclosed(ar.index)
    ensures Enclosed(ApplySource(start, ar, o).index)
  {
    var wm := WatermarkOf(ar, o.src.name);
    if Usable(o.src, ar.index, o.files, wm) {
      DeltaEncloses(o.src, ar.index, o.files, wm.value);
    } else {
      FullParseEncloses(o.src, ar.index, IdsOf(o.src, start), o.files);
    }
  }

  lemma {:induction false} SessionEncloses(c: Corpus, idx: Index, f: SessionFile)
    requires Enclosed(idx)
    ensures EntryEncloses(FullEntry(c, f)) && EntryEncloses(UpdatedEntry(c, idx, f))
  {
    FullEncloses(ConfigFor(c, f), f.data, f.mtime);
    if f.id in idx && SI.Resumable(f.data, f.mtime, idx[f.id].session) {
      ResumedEncloses(ConfigFor(c, f), f.data, f.mtime, idx[f.id].session);
    }
  }

  lemma {:induction false} OneMoreEncloses(c: Corpus, start: Index, w: Work, a: Action)
    requires WorkEncloses(w)
    ensures WorkEncloses(ApplyOne(c, start, w, a))
  {
    match a
    case CreateSession(f) => SessionEncloses(c, w.archive.index, f);
    case UpdateSession(f) => SessionEncloses(c, w.archive.index, f);
    case CreateSource(o) => SourceEncloses(start, w.archive, o);
    case UpdateSource(o) => SourceEncloses(start, w.archive, o);
    case _ =>
  }

  lemma {:induction false} AllEnclose(c: Corpus, start: Index, w: Work, plan: seq<Action>)
    requires WorkEncloses(w)
    ensures WorkEncloses(ApplyAll(c, start, w, plan))
  {
    if plan != [] {
      AllEnclose(c, start, w, plan[..|plan| - 1]);
      OneMoreEncloses(c, start, ApplyAll(c, start, w, plan[..|plan| - 1]), plan[|plan| - 1]);
    }
  }

  /** Applying any plan keeps the index enclosed. */
  lemma {:induction false} AppliedEncloses(c: Corpus, ar: Archive, plan: seq<Action>)
    requires Enclosed(ar.index)
    ensures Enclosed(Applied(c, ar, plan).index)
  {
    var w0 := Work(ar, map[], {}, {});
    AllEnclose(c, ar.index, w0, plan);
    var w := ApplyAll(c, ar.index, w0, plan);
    var idx := Finish(w).index;
    forall k | k in idx ensures EntryEncloses(idx[k]) {
      assert idx[k] == if k in w.upserts then w.upserts[k] else w.archive.index[k];
    }
  }

  /** One reconcile cycle: the files it finds and the plan it applies. */
  datatype Round = Round(corpus: Corpus, plan: seq<Action>)

  function Rounds(ar: Archive, rounds: seq<Round>): Archive {
    if rounds == [] then ar
    else Applied(rounds[|rounds| - 1].corpus, Rounds(ar, rounds[..|rounds| - 1]), rounds[|rounds| - 1].plan)
  }

  lemma {:induction false} EveryArchiveIsEnclosed(watermarks: map<string, Watermark>, rounds: seq<Round>)
    ensures Enclosed(Rounds(Archive(map[], watermarks), rounds).index)
  {
    if rounds != [] {
      var front, r := rounds[..|rounds| - 1], rounds[|rounds| - 1];
      EveryArchiveIsEnclosed(watermarks, front);
      AppliedEncloses(r.corpus, Rounds(Archive(map[], watermarks), front), r.plan);
    }
  }

  /** On every archive that any number of reconcile cycles builds from an empty
      index, over whatever files: if all turns carry timestamps, searching with the
      pre-filter returns the same hits in the same order, limit included, as a scan
      of every turn. */
  lemma {:induction false} SearchIsExactOnEveryArchive(
    watermarks: map<string, Watermark>, rounds: seq<Round>, q: Query, sids: seq<string>)
    requires AllTimestamped(Rounds(Archive(map[], watermarks), rounds).index)
    ensures var idx := Rounds(Archive(map[], watermarks), rounds).index;
            Limited(q.limit, AllHits(idx, q, sids, true)) == Limited(q.limit, AllHits(idx, q, sids, false))
  {
    EveryArchiveIsEnclosed(watermarks, rounds);
    PrefilterIsExact(Rounds(Archive(map[], watermarks), rounds).index, q, sids);
  }

  /** And for whatever turns, over the sessions a search scans: the two agree, limit
      included, exactly when no hidden hit is among those the plain scan returns. */
  lemma {:induction false} LimitedSearchIsExactIffHiddenOnlyLate(
    watermarks: map<string, Watermark>, rounds: seq<Round>, q: Query, sids: seq<string>)
    requires Candidates(Rounds(Archive(map[], watermarks), rounds).index, q, sids)
    ensures var idx := Rounds(Archive(map[], watermarks), rounds).index;
            Limited(q.limit, AllHits(idx, q, sids, true)) == Limited(q.limit, AllHits(idx, q, sids, false)) <==>
            HiddenOnlyLate(idx, q, sids)
  {
    var idx := Rounds(Archive(map[], watermarks), rounds).index;
    EveryArchiveIsEnclosed(watermarks, rounds);
    CandidatesAreDistinct(idx, q, sids);
    LimitedIsExactIffHiddenOnlyLate(idx, q, sids);
  }

  /** With no limit the two agree exactly when the pre-filter hides no session. */
  lemma {:induction false} SearchIsExactIffNothingHidden(
    watermarks: map<string, Watermark>, rounds: seq<Round>, q: Query, sids: seq<string>)
    ensures var idx := Rounds(Archive(map[], watermarks), rounds).index;
            AllHits(idx, q, sids, true) == AllHits(idx, q, sids, false) <==>
            (forall i :: 0 <= i < |sids| ==> !(sids[i] in idx && Hidden(q, idx[sids[i]])))
  {
    EveryArchiveIsEnclosed(watermarks, rounds);
    PrefilterIsExactIffNothingHidden(Rounds(Archive(map[], watermarks), rounds).index, q, sids);
  }
}
