/** Delta ingest agrees with the full re-parse, over every run of cycles. */
module IngestTheorems {
  import opened Prelude
  import opened Lines
  import opened Coverage
  import opened Ingest
  import opened IngestDelta
  import opened IngestFiles
  import S = IngestSessions

  // --------------------------------------------------- one session, one cycle

  /** A delta leaves session k with the new records merged onto it. */
  lemma {:induction false} DeltaAt(src: Source, idx: Index, files: seq<File>, wm: Watermark, k: string)
    ensures S.At(Delta(src, idx, files, wm).index, k)
         == S.Merged(idx, k, Collect(Accepted(src.env), Past(wm.files), files))
  {
    var items := Collect(Accepted(src.env), Past(wm.files), files);
    var sessions, first := AddAll(idx, map[], items), S.FirstOf(items, k);
    S.SessionOf(idx, map[], items, k);
    if first.Some? {
      var seed := Seed(idx, k, first.value.source);
      S.AddedGrows(seed, k, items);
      if k !in idx { S.NewSessionIsTouched(idx, k, first.value.source, items); }
      TouchedAt(idx, sessions, files, k);
    } else {
      assert k !in Touched(sessions, files);
    }
  }

  lemma TouchedAt(idx: Index, sessions: Sessions, files: seq<File>, k: string)
    requires k in sessions && (k in idx || sessions[k].added > 0)
    requires k in idx && sessions[k].added == 0 ==> sessions[k].entry == idx[k]
    ensures S.At(idx + Touched(sessions, files), k) == Some(S.Unstamped(sessions[k].entry))
  {
  }

  /** The full parse leaves session k as one pass over all records builds it. */
  lemma {:induction false} FullAt(src: Source, idx: Index, files: seq<File>, k: string)
    requires k in idx ==> idx[k].source == src.name || S.FirstOf(FullItems(src, files), k).Some?
    ensures S.At(Full(src, idx, files).index, k) == S.Reference(FullItems(src, files), k)
  {
    var items := FullItems(src, files);
    var sessions := AddAll(map[], map[], items);
    S.SessionOf(map[], map[], items, k);
    ReplacedAt(src, idx, sessions, files, k);
  }

  lemma ReplacedAt(src: Source, idx: Index, sessions: Sessions, files: seq<File>, k: string)
    requires k in idx ==> idx[k].source == src.name || k in sessions
    ensures S.At(Replaced(idx, IdsOf(src, idx), Parsed(sessions, files)), k)
         == if k in sessions then Some(S.Unstamped(sessions[k].entry)) else None
  {
  }

  // -------------------------------------------------------------- snapshots

  /** Files as a cycle finds them: listed in name order, their unterminated tails
      not yet records. */
  predicate Snapshot(src: Source, files: seq<File>) { Sorted(files) && TailsUnread(src.env, files) }

  lemma SkipsLemma(env: Env, source: string)
    ensures Skips(env, Accepted(env)) && Skips(env, CountedFor(env, source))
  {
  }

  lemma {:induction false} ItemsAreShaped(env: Env, cut: Cut, files: seq<File>)
    requires HashesAreHex(env)
    ensures S.AllShaped(Collect(Accepted(env), cut, files))
  {
    CollectAll(Accepted(env), (item: Item) => S.Shaped(item.dedup), cut, files);
  }

  /** The watermark says exactly what a full parse of files would record. */
  predicate CaughtUp(src: Source, s: State, files: seq<File>) {
    && s.watermark.Some?
    && s.watermark.value.fingerprint == src.fingerprint
    && s.watermark.value.files == FullMarks(files)
    && s.watermark.value.coverage == FullCoverage(src, files)
  }

  /** Growth anywhere: offsets and coverage after the cycle are those of a full
      parse. */
  lemma {:induction false} CycleCatchesUp(src: Source, s: State, prev: seq<File>, next: seq<File>)
    requires Snapshot(src, prev) && Snapshot(src, next) && Grows(prev, next) && CaughtUp(src, s, prev)
    ensures CaughtUp(src, Cycle(src, s, next), next)
  {
    if Usable(src, s.index, next, s.watermark) {
      var marks := s.watermark.value.files;
      GrowthIsMarked(prev, next);
      MarksMoveOn(marks, next);
      CoverageAfterGrowth(src, prev, next);
    }
  }

  lemma {:induction false} CoverageAfterGrowth(src: Source, prev: seq<File>, next: seq<File>)
    requires Snapshot(src, prev) && Snapshot(src, next) && Grows(prev, next)
    ensures FullCoverage(src, next) == Add(FullCoverage(src, prev), DeltaCoverage(src, next, FullMarks(prev)))
  {
    var marks, pick := FullMarks(prev), CountedFor(src.env, src.name);
    GrowthIsMarked(prev, next);
    SkipsLemma(src.env, src.name);
    TailsAddNothing(src.env, pick, prev);
    TailsAddNothing(src.env, pick, next);
    BelowIsPrevious(pick, marks, prev, next);
    CoverageTiles(src, marks, next);
  }

  // ------------------------------------------------ growth in file order

  predicate GrowsInOrder(prev: seq<File>, next: seq<File>) {
    Grows(prev, next) && InOrder(FullMarks(prev), next)
  }

  lemma {:induction false} InOrderItems(src: Source, prev: seq<File>, next: seq<File>)
    requires Snapshot(src, prev) && Snapshot(src, next) && GrowsInOrder(prev, next)
    ensures FullItems(src, next)
         == FullItems(src, prev) + Collect(Accepted(src.env), Past(FullMarks(prev)), next)
  {
    var marks, pick := FullMarks(prev), Accepted(src.env);
    GrowthIsMarked(prev, next);
    SkipsLemma(src.env, src.name);
    TailsAddNothing(src.env, pick, prev);
    TailsAddNothing(src.env, pick, next);
    BelowIsPrevious(pick, marks, prev, next);
    InOrderAppends(pick, marks, next);
  }

  lemma {:induction false} CycleKeepsReference(src: Source, s: State, prev: seq<File>, next: seq<File>, k: string)
    requires HashesAreHex(src.env) && Snapshot(src, prev) && Snapshot(src, next) && GrowsInOrder(prev, next)
    requires CaughtUp(src, s, prev) && S.At(s.index, k) == S.Reference(FullItems(src, prev), k)
    requires S.NoClash(S.DedupsIn(FullItems(src, next), k))
    ensures S.At(Cycle(src, s, next).index, k) == S.Reference(FullItems(src, next), k)
  {
    var before := FullItems(src, prev);
    var more := Collect(Accepted(src.env), Past(FullMarks(prev)), next);
    InOrderItems(src, prev, next);
    if Usable(src, s.index, next, s.watermark) {
      DeltaAt(src, s.index, next, s.watermark.value, k);
      ItemsAreShaped(src.env, Whole, prev);
      S.MergeReachesWhole(s.index, k, before, more);
    } else {
      S.FirstOfMore(before, more, k);
      FullAt(src, s.index, next, k);
    }
  }

  /** Over every run of cycles whose new bytes follow the consumed ones in file
      order, each session ends with the turns, indexes, title, identity and time
      bounds that one full parse of the last snapshot gives it. */
  lemma {:induction false} RunEqualsFullParse(src: Source, s: State, runs: seq<seq<File>>, k: string)
    requires HashesAreHex(src.env) && runs != [] && s.watermark.None?
    requires forall i :: 0 <= i < |runs| ==> Snapshot(src, runs[i])
    requires forall i :: 0 <= i < |runs| - 1 ==> GrowsInOrder(runs[i], runs[i + 1])
    requires k in s.index ==> s.index[k].source == src.name
    requires S.NoClash(S.DedupsIn(FullItems(src, runs[|runs| - 1]), k))
    ensures var last := runs[|runs| - 1];
            S.At(Cycles(src, s, runs).index, k) == S.At(Full(src, s.index, last).index, k)
  {
    RunKeepsReference(src, s, runs, k);
    FullAt(src, s.index, runs[|runs| - 1], k);
  }

  lemma {:induction false} RunKeepsReference(src: Source, s: State, runs: seq<seq<File>>, k: string)
    requires HashesAreHex(src.env) && runs != [] && s.watermark.None?
    requires forall i :: 0 <= i < |runs| ==> Snapshot(src, runs[i])
    requires forall i :: 0 <= i < |runs| - 1 ==> GrowsInOrder(runs[i], runs[i + 1])
    requires k in s.index ==> s.index[k].source == src.name
    requires S.NoClash(S.DedupsIn(FullItems(src, runs[|runs| - 1]), k))
    ensures CaughtUp(src, Cycles(src, s, runs), runs[|runs| - 1])
    ensures S.At(Cycles(src, s, runs).index, k) == S.Reference(FullItems(src, runs[|runs| - 1]), k)
  {
    if |runs| == 1 {
      FirstCycle(src, s, runs);
      FullAt(src, s.index, runs[0], k);
    } else {
      var front, prev, next := SplitRuns(runs);
      assert GrowsInOrder(runs[|runs| - 2], runs[|runs| - 1]);
      InOrderItems(src, prev, next);
      S.DedupsOfMore(FullItems(src, prev), Collect(Accepted(src.env), Past(FullMarks(prev)), next), k);
      RunKeepsReference(src, s, front, k);
      CycleCatchesUp(src, Cycles(src, s, front), prev, next);
      CycleKeepsReference(src, Cycles(src, s, front), prev, next, k);
    }
  }

  lemma FirstCycle(src: Source, s: State, runs: seq<seq<File>>)
    requires |runs| == 1 && s.watermark.None?
    ensures Cycles(src, s, runs) == Full(src, s.index, runs[0]) && CaughtUp(src, Cycles(src, s, runs), runs[0])
  {
    assert runs[..0] == [];
    assert Cycles(src, s, runs[..0]) == s;
  }

  lemma {:induction false} SplitRuns(runs: seq<seq<File>>) returns (front: seq<seq<File>>, prev: seq<File>, next: seq<File>)
    requires |runs| > 1
    ensures front == runs[..|runs| - 1] && |front| == |runs| - 1 && front != []
    ensures prev == front[|front| - 1] == runs[|runs| - 2] && next == runs[|runs| - 1]
    ensures forall i :: 0 <= i < |front| ==> front[i] == runs[i]
  {
    front := runs[..|runs| - 1];
    prev, next := front[|front| - 1], runs[|runs| - 1];
  }

  // --------------------------------------------------------- growth anywhere

  function UuidsAt(idx: Index, k: string): Option<set<string>> { EntryUuids(S.At(idx, k)) }

  function EntryUuids(e: Option<Entry>): Option<set<string>> {
    if e.Some? then Some(S.UuidsOf(e.value.session.turns)) else None
  }

  /** A session exists exactly when it has records, and has their uuids. */
  function Expected(uuids: set<string>): Option<set<string>> { if uuids == {} then None else Some(uuids) }

  lemma {:induction false} FullUuids(src: Source, idx: Index, files: seq<File>, k: string)
    requires HashesAreHex(src.env)
    requires k in idx ==> idx[k].source == src.name || S.UuidsIn(FullItems(src, files), k) != {}
    ensures UuidsAt(Full(src, idx, files).index, k) == Expected(S.UuidsIn(FullItems(src, files), k))
  {
    S.HasDedup(FullItems(src, files), k);
    FullAt(src, idx, files, k);
    ItemsAreShaped(src.env, Whole, files);
    ReferenceUuids(FullItems(src, files), k);
  }

  lemma {:induction false} ReferenceUuids(items: seq<Item>, k: string)
    requires S.AllShaped(items)
    ensures EntryUuids(S.Reference(items, k)) == Expected(S.UuidsIn(items, k))
  {
    S.HasDedup(items, k);
    if S.FirstOf(items, k).Some? {
      var start := Accum(NewEntry(S.FirstOf(items, k).value.source), {}, 0);
      S.GrownUuids(start, k, items);
      assert S.UuidsOf(start.entry.session.turns) + S.UuidsIn(items, k) == S.UuidsIn(items, k);
    }
  }

  lemma {:induction false} MergedUuids(idx: Index, k: string, items: seq<Item>, had: set<string>)
    requires S.AllShaped(items) && UuidsAt(idx, k) == Expected(had)
    ensures EntryUuids(S.Merged(idx, k, items)) == Expected(had + S.UuidsIn(items, k))
  {
    S.HasDedup(items, k);
    var first := S.FirstOf(items, k);
    if first.Some? {
      var seed := Seed(idx, k, first.value.source);
      S.SeedIsFaithful(idx, k, first.value.source);
      S.GrownUuids(seed, k, items);
      assert S.UuidsOf(seed.entry.session.turns) == had;
    } else {
      assert had + {} == had;
    }
  }

  lemma {:induction false} DeltaUuids(src: Source, idx: Index, files: seq<File>, wm: Watermark, k: string, had: set<string>)
    requires HashesAreHex(src.env) && UuidsAt(idx, k) == Expected(had)
    ensures var items := Collect(Accepted(src.env), Past(wm.files), files);
            UuidsAt(Delta(src, idx, files, wm).index, k) == Expected(had + S.UuidsIn(items, k))
  {
    DeltaAt(src, idx, files, wm, k);
    ItemsAreShaped(src.env, Past(wm.files), files);
    MergedUuids(idx, k, Collect(Accepted(src.env), Past(wm.files), files), had);
  }

  lemma {:induction false} UuidsTile(env: Env, marks: Marks, files: seq<File>, k: string)
    requires MarkedAtLines(marks, files)
    ensures S.UuidsIn(Collect(Accepted(env), Complete, files), k)
         == S.UuidsIn(Collect(Accepted(env), Below(marks), files), k)
            + S.UuidsIn(Collect(Accepted(env), Past(marks), files), k)
  {
    var pick := Accepted(env);
    if files == [] {
      assert Collect(pick, Complete, files) == [] == Collect(pick, Below(marks), files);
      assert Collect(pick, Past(marks), files) == [];
    } else {
      var front, f := SplitLast(files);
      UuidsTile(env, marks, front, k);
      FileTiles(pick, marks, f);
      var c, c1 := CollectLast(pick, Complete, files, front, f);
      var b, b1 := CollectLast(pick, Below(marks), files, front, f);
      var p, p1 := CollectLast(pick, Past(marks), files, front, f);
      S.UuidsInMore(c, c1, k);
      S.UuidsInMore(b, b1, k);
      S.UuidsInMore(p, p1, k);
      S.UuidsInMore(b1, p1, k);
    }
  }

  lemma {:induction false} UuidsAfterGrowth(src: Source, prev: seq<File>, next: seq<File>, k: string)
    requires Snapshot(src, prev) && Snapshot(src, next) && Grows(prev, next)
    ensures S.UuidsIn(FullItems(src, next), k)
         == S.UuidsIn(FullItems(src, prev), k)
            + S.UuidsIn(Collect(Accepted(src.env), Past(FullMarks(prev)), next), k)
  {
    var marks, pick := FullMarks(prev), Accepted(src.env);
    GrowthIsMarked(prev, next);
    SkipsLemma(src.env, src.name);
    TailsAddNothing(src.env, pick, prev);
    TailsAddNothing(src.env, pick, next);
    BelowIsPrevious(pick, marks, prev, next);
    UuidsTile(src.env, marks, next, k);
  }

  lemma {:induction false} CycleKeepsUuids(src: Source, s: State, prev: seq<File>, next: seq<File>, k: string)
    requires HashesAreHex(src.env) && Snapshot(src, prev) && Snapshot(src, next) && Grows(prev, next)
    requires CaughtUp(src, s, prev) && UuidsAt(s.index, k) == Expected(S.UuidsIn(FullItems(src, prev), k))
    ensures UuidsAt(Cycle(src, s, next).index, k) == Expected(S.UuidsIn(FullItems(src, next), k))
  {
    UuidsAfterGrowth(src, prev, next, k);
    if Usable(src, s.index, next, s.watermark) {
      DeltaUuids(src, s.index, next, s.watermark.value, k, S.UuidsIn(FullItems(src, prev), k));
    } else {
      FullUuids(src, s.index, next, k);
    }
  }

  lemma {:induction false} RunKeepsUuids(src: Source, s: State, runs: seq<seq<File>>, k: string)
    requires HashesAreHex(src.env) && runs != [] && s.watermark.None?
    requires forall i :: 0 <= i < |runs| ==> Snapshot(src, runs[i])
    requires forall i :: 0 <= i < |runs| - 1 ==> Grows(runs[i], runs[i + 1])
    requires k in s.index ==> s.index[k].source == src.name
    ensures CaughtUp(src, Cycles(src, s, runs), runs[|runs| - 1])
    ensures UuidsAt(Cycles(src, s, runs).index, k) == Expected(S.UuidsIn(FullItems(src, runs[|runs| - 1]), k))
  {
    if |runs| == 1 {
      FirstCycle(src, s, runs);
      FullUuids(src, s.index, runs[0], k);
    } else {
      var front, prev, next := SplitRuns(runs);
      assert Grows(runs[|runs| - 2], runs[|runs| - 1]);
      RunKeepsUuids(src, s, front, k);
      CycleCatchesUp(src, Cycles(src, s, front), prev, next);
      CycleKeepsUuids(src, Cycles(src, s, front), prev, next, k);
    }
  }

  /** Over every run of cycles, wherever the files grow: the same sessions with the
      same sets of turn uuids as one full parse, and the same watermark offsets
      and coverage. */
  lemma {:induction false} AnyGrowthKeepsUuids(src: Source, s: State, runs: seq<seq<File>>, k: string)
    requires HashesAreHex(src.env) && runs != [] && s.watermark.None?
    requires forall i :: 0 <= i < |runs| ==> Snapshot(src, runs[i])
    requires forall i :: 0 <= i < |runs| - 1 ==> Grows(runs[i], runs[i + 1])
    requires k in s.index ==> s.index[k].source == src.name
    ensures var last := runs[|runs| - 1];
            var full, run := Full(src, s.index, last), Cycles(src, s, runs);
            && UuidsAt(run.index, k) == UuidsAt(full.index, k)
            && run.watermark.Some?
            && run.watermark.value.files == full.watermark.value.files
            && run.watermark.value.coverage == full.watermark.value.coverage
  {
    RunKeepsUuids(src, s, runs, k);
    FullUuids(src, s.index, runs[|runs| - 1], k);
  }

  lemma {:induction false} FullMarksGrow(prev: seq<File>, next: seq<File>, name: string)
    requires Sorted(prev) && Sorted(next) && Grows(prev, next) && name in FullMarks(prev)
    ensures name in FullMarks(next) && FullMarks(prev)[name].offset <= FullMarks(next)[name].offset
  {
    FullMarksAre(prev);
    FullMarksAre(next);
    var i := PositionOf(prev, name);
    assert KeptIn(prev[i], next);
    var j :| 0 <= j < |next| && next[j].name == prev[i].name && prev[i].data <= next[j].data;
    OffsetsGrow(prev[i].data, next[j].data);
  }

  lemma {:induction false} PositionOf(files: seq<File>, name: string) returns (i: nat)
    requires name in Names(files)
    ensures i < |files| && files[i].name == name
  {
    var f :| f in files && f.name == name;
    i :| 0 <= i < |files| && files[i] == f;
  }

  /** Along every run of cycles, whether delta or full, the watermark never loses a
      file and never moves a mark back. */
  lemma {:induction false} MarksNeverDecrease(src: Source, s: State, runs: seq<seq<File>>, n: nat, name: string)
    requires s.watermark.None? && 0 < n <= |runs|
    requires forall i :: 0 <= i < |runs| ==> Snapshot(src, runs[i])
    requires forall i :: 0 <= i < |runs| - 1 ==> Grows(runs[i], runs[i + 1])
    ensures var before, after := Cycles(src, s, runs[..n]).watermark, Cycles(src, s, runs).watermark;
            && before.Some? && after.Some?
            && (name in before.value.files ==>
                  name in after.value.files && before.value.files[name].offset <= after.value.files[name].offset)
    decreases |runs|
  {
    WatermarkIsFull(src, s, runs);
    if n == |runs| {
      assert runs[..n] == runs;
    } else {
      var front, prev, next := SplitRuns(runs);
      assert Grows(runs[|runs| - 2], runs[|runs| - 1]);
      assert front[..n] == runs[..n];
      MarksNeverDecrease(src, s, front, n, name);
      WatermarkIsFull(src, s, front);
      if name in FullMarks(prev) { FullMarksGrow(prev, next, name); }
    }
  }

  lemma {:induction false} WatermarkIsFull(src: Source, s: State, runs: seq<seq<File>>)
    requires runs != [] && s.watermark.None?
    requires forall i :: 0 <= i < |runs| ==> Snapshot(src, runs[i])
    requires forall i :: 0 <= i < |runs| - 1 ==> Grows(runs[i], runs[i + 1])
    ensures CaughtUp(src, Cycles(src, s, runs), runs[|runs| - 1])
  {
    if |runs| == 1 {
      FirstCycle(src, s, runs);
    } else {
      var front, prev, next := SplitRuns(runs);
      assert Grows(runs[|runs| - 2], runs[|runs| - 1]);
      WatermarkIsFull(src, s, front);
      CycleCatchesUp(src, Cycles(src, s, front), prev, next);
    }
  }

  lemma OffsetsGrow(a: Bytes, b: Bytes)
    requires a <= b
    ensures LastComplete(a) <= LastComplete(b)
  {
    LastCompleteGrows(a, b[|a|..]);
    assert a + b[|a|..] == b;
  }

  // ------------------------------------------------------------------ replay

  /** Every indexed session's recorded turn count is the number of its turns. */
  predicate CountsAgree(idx: Index) { forall k :: k in idx ==> idx[k].session.turnCount == |idx[k].session.turns| }

  lemma {:induction false} TouchedGrows(src: Source, idx: Index, files: seq<File>, wm: Watermark, k: string)
    requires k in idx && CountsAgree(idx)
    ensures var idx' := Delta(src, idx, files, wm).index;
            k in idx' && idx[k].session.turnCount <= idx'[k].session.turnCount
  {
    var items := Collect(Accepted(src.env), Past(wm.files), files);
    S.SessionOf(idx, map[], items, k);
    if S.FirstOf(items, k).Some? {
      S.AddedGrows(Seed(idx, k, S.FirstOf(items, k).value.source), k, items);
    }
  }

  /** After a delta, every key its records carry is seeded from the index. */
  lemma {:induction false} DeltaKeysAreSeeded(src: Source, idx: Index, files: seq<File>, wm: Watermark, k: string)
    requires HashesAreHex(src.env)
    ensures var idx', items := Delta(src, idx, files, wm).index, Collect(Accepted(src.env), Past(wm.files), files);
            S.FirstOf(items, k).Some? ==>
              k in idx' && S.DedupsIn(items, k) <= Seeded(idx'[k].session.turns)
  {
    var items := Collect(Accepted(src.env), Past(wm.files), files);
    var first := S.FirstOf(items, k);
    if first.Some? {
      var seed := Seed(idx, k, first.value.source);
      var acc := S.Grown(seed, k, items);
      DeltaAt(src, idx, files, wm, k);
      ItemsAreShaped(src.env, Past(wm.files), files);
      S.SeedIsFaithful(idx, k, first.value.source);
      S.GrownUuids(seed, k, items);
      S.GrownSeen(seed, k, items);
      S.SeedingCovers(acc);
      assert Delta(src, idx, files, wm).index[k].session.turns == acc.entry.session.turns;
    }
  }

  lemma {:induction false} NothingTouched(src: Source, idx: Index, files: seq<File>, wm: Watermark)
    requires HashesAreHex(src.env)
    ensures Touched(DeltaSessions(src, Delta(src, idx, files, wm).index, files, wm.files), files) == map[]
  {
    var idx' := Delta(src, idx, files, wm).index;
    var items := Collect(Accepted(src.env), Past(wm.files), files);
    var sessions := DeltaSessions(src, idx', files, wm.files);
    forall k | k in sessions ensures sessions[k].added == 0 {
      S.SessionOf(idx', map[], items, k);
      DeltaKeysAreSeeded(src, idx, files, wm, k);
      S.NothingNew(Seed(idx', k, S.FirstOf(items, k).value.source), k, items);
    }
  }

  /** Replaying a delta whose index commit landed but whose watermark did not: the
      watermark is still usable, nothing is added, and the same offsets and
      coverage come out. */
  lemma {:induction false} ReplayIsIdempotent(src: Source, idx: Index, files: seq<File>, wm: Watermark)
    requires HashesAreHex(src.env) && CountsAgree(idx) && Usable(src, idx, files, Some(wm))
    ensures var once := Delta(src, idx, files, wm);
            && Usable(src, once.index, files, Some(wm))
            && var again := Delta(src, once.index, files, wm);
               && again.index == once.index
               && again.watermark.value.files == once.watermark.value.files
               && again.watermark.value.coverage == once.watermark.value.coverage
  {
    StillUsable(src, idx, files, wm);
    NothingTouched(src, idx, files, wm);
    NothingChanges(src, Delta(src, idx, files, wm).index, files, wm);
  }

  lemma {:induction false} StillUsable(src: Source, idx: Index, files: seq<File>, wm: Watermark)
    requires CountsAgree(idx) && Usable(src, idx, files, Some(wm))
    ensures Usable(src, Delta(src, idx, files, wm).index, files, Some(wm))
  {
    var idx' := Delta(src, idx, files, wm).index;
    forall k | k in wm.sessions ensures k in idx' && idx'[k].session.turnCount >= wm.sessions[k] {
      TouchedGrows(src, idx, files, wm, k);
    }
  }

  lemma {:induction false} NothingChanges(src: Source, idx: Index, files: seq<File>, wm: Watermark)
    requires Touched(DeltaSessions(src, idx, files, wm.files), files) == map[]
    ensures Delta(src, idx, files, wm).index == idx
  {
    assert idx + map[] == idx;
  }
}
