/** Runs of ingest cycles in which any cycle may lose its watermark after the index
    commit (internal/conversations/provider.go:875-884): the next cycle reads from
    the old marks again, over files that may have grown since. */
module IngestCrashes {
  import opened Prelude
  import opened Lines
  import opened Ingest
  import opened IngestDelta
  import opened IngestFiles
  import opened IngestTheorems
  import S = IngestSessions

  /** One cycle: the files it finds, and whether its watermark survives. */
  datatype Round = Round(files: seq<File>, kept: bool)

  function Survive(src: Source, s: State, r: Round): State {
    var t := Cycle(src, s, r.files);
    if r.kept then t else State(t.index, s.watermark)
  }

  function Survived(src: Source, s: State, rounds: seq<Round>): State {
    if rounds == [] then s else Survive(src, Survived(src, s, rounds[..|rounds| - 1]), rounds[|rounds| - 1])
  }

  // ------------------------------------------------------------ growth composes

  lemma {:induction false} GrowsTwice(a: seq<File>, b: seq<File>, c: seq<File>)
    requires Grows(a, b) && Grows(b, c)
    ensures Grows(a, c)
  {
    forall i | 0 <= i < |a| ensures KeptIn(a[i], c) {
      assert KeptIn(a[i], b);
      var j :| 0 <= j < |b| && b[j].name == a[i].name && a[i].data <= b[j].data;
      assert KeptIn(b[j], c);
      var k :| 0 <= k < |c| && c[k].name == b[j].name && b[j].data <= c[k].data;
      assert a[i].data <= c[k].data;
    }
  }

  lemma {:induction false} GrowsInPlace(a: seq<File>)
    ensures Grows(a, a)
  {
  }

  /** The mark of a file, by position. */
  lemma {:induction false} OffsetOf(prev: seq<File>, i: nat, f: File)
    requires Sorted(prev) && i < |prev| && prev[i].name == f.name
    ensures Offset(FullMarks(prev), f) == LastComplete(prev[i].data)
  {
    FullMarksAre(prev);
  }

  lemma {:induction false} NoOffset(prev: seq<File>, f: File)
    requires Sorted(prev) && f.name !in Names(prev)
    ensures Offset(FullMarks(prev), f) == 0
  {
    FullMarksAre(prev);
  }

  lemma {:induction false} PastIffBehind(prev: seq<File>, next: seq<File>, i: nat)
    requires Sorted(prev) && Sorted(next) && Grows(prev, next) && i < |next|
    ensures PastMark(FullMarks(prev), next[i]) != [] <==> Offset(FullMarks(prev), next[i]) < LastComplete(next[i].data)
    ensures Offset(FullMarks(prev), next[i]) <= LastComplete(next[i].data)
  {
    GrowthOfFile(prev, next, i);
    PartsTile(FullMarks(prev), next[i]);
  }

  lemma {:induction false} NameMoves(a: seq<File>, b: seq<File>, name: string) returns (i: nat, j: nat)
    requires Grows(a, b) && name in Names(a)
    ensures i < |a| && j < |b| && a[i].name == b[j].name == name && a[i].data <= b[j].data
  {
    i := PositionOf(a, name);
    assert KeptIn(a[i], b);
    j :| 0 <= j < |b| && b[j].name == a[i].name && a[i].data <= b[j].data;
  }

  lemma {:induction false} SortedBefore(files: seq<File>, i: nat, j: nat)
    requires Sorted(files) && i < |files| && j < |files| && Less(files[i].name, files[j].name)
    ensures i < j
  {
    if i == j {
      LessIrreflexive(files[i].name);
    } else if j < i {
      LessTransitive(files[i].name, files[j].name, files[i].name);
      LessIrreflexive(files[i].name);
    }
  }

  /** A later file that the marks of a know, when an earlier one has new lines. */
  lemma {:induction false} LaterIsUnread(a: seq<File>, b: seq<File>, c: seq<File>, i: nat, j: nat)
    requires Sorted(a) && Sorted(b) && Sorted(c) && GrowsInOrder(a, b) && GrowsInOrder(b, c)
    requires i < j < |c| && PastMark(FullMarks(a), c[i]) != [] && c[j].name in Names(a)
    ensures Offset(FullMarks(a), c[j]) == 0
  {
    GrowsTwice(a, b, c);
    PastIffBehind(a, c, i);
    PastIffBehind(b, c, i);
    var p, q := NameMoves(a, b, c[j].name);
    OffsetOf(a, p, c[j]);
    OffsetOf(b, q, c[j]);
    if PastMark(FullMarks(b), c[i]) != [] {
      assert Offset(FullMarks(b), c[j]) == 0;
      OffsetsGrow(a[p].data, b[q].data);
    } else if c[i].name in Names(b) {
      var r := PositionOf(b, c[i].name);
      OffsetOf(b, r, c[i]);
      PastIffBehind(a, b, r);
      SameOffset(FullMarks(a), c[i], b[r]);
      SortedBefore(b, r, q);
      OffsetOf(a, p, b[q]);
    } else {
      NoOffset(b, c[i]);
    }
  }

  lemma SameOffset(marks: Marks, f: File, g: File)
    requires f.name == g.name
    ensures Offset(marks, f) == Offset(marks, g)
  {
  }

  lemma {:induction false} InOrderTwice(a: seq<File>, b: seq<File>, c: seq<File>)
    requires Sorted(a) && Sorted(b) && Sorted(c) && GrowsInOrder(a, b) && GrowsInOrder(b, c)
    ensures GrowsInOrder(a, c)
  {
    GrowsTwice(a, b, c);
    forall i, j | 0 <= i < j < |c| && PastMark(FullMarks(a), c[i]) != [] ensures Offset(FullMarks(a), c[j]) == 0 {
      if c[j].name in Names(a) { LaterIsUnread(a, b, c, i, j); } else { NoOffset(a, c[j]); }
    }
  }

  lemma {:induction false} InOrderInPlace(a: seq<File>)
    requires Sorted(a)
    ensures GrowsInOrder(a, a)
  {
    GrowsInPlace(a);
    forall i | 0 <= i < |a| ensures PastMark(FullMarks(a), a[i]) == [] {
      NothingPastOwnMark(a, i);
    }
    NothingNewIsInOrder(FullMarks(a), a);
  }

  lemma NothingNewIsInOrder(marks: Marks, files: seq<File>)
    requires forall i :: 0 <= i < |files| ==> PastMark(marks, files[i]) == []
    ensures InOrder(marks, files)
  {
  }

  lemma {:induction false} NothingPastOwnMark(a: seq<File>, i: nat)
    requires Sorted(a) && i < |a|
    ensures PastMark(FullMarks(a), a[i]) == []
  {
    GrowsInPlace(a);
    PastIffBehind(a, a, i);
    OffsetOf(a, i, a[i]);
  }

  // ------------------------------------------------------------- growth anywhere

  /** The watermark is that of an earlier snapshot, or there is none. */
  ghost predicate Behind(src: Source, s: State, mark: Option<seq<File>>, now: seq<File>) {
    if mark.None? then s.watermark.None?
    else Snapshot(src, mark.value) && Grows(mark.value, now) && CaughtUp(src, s, mark.value)
  }

  lemma {:induction false} CycleMarks(src: Source, s: State, mark: Option<seq<File>>, now: seq<File>, next: seq<File>)
    requires Snapshot(src, next) && Grows(now, next) && Behind(src, s, mark, now)
    ensures CaughtUp(src, Cycle(src, s, next), next)
  {
    if mark.Some? {
      GrowsTwice(mark.value, now, next);
      CycleCatchesUp(src, s, mark.value, next);
    }
  }

  /** Rereading from older marks adds no uuid that the files do not hold. */
  lemma {:induction false} RereadKeepsUuids(
    src: Source, s: State, mark: Option<seq<File>>, now: seq<File>, next: seq<File>, k: string)
    requires HashesAreHex(src.env) && Snapshot(src, now) && Snapshot(src, next) && Grows(now, next)
    requires Behind(src, s, mark, now) && UuidsAt(s.index, k) == Expected(S.UuidsIn(FullItems(src, now), k))
    ensures UuidsAt(Cycle(src, s, next).index, k) == Expected(S.UuidsIn(FullItems(src, next), k))
  {
    if Usable(src, s.index, next, s.watermark) {
      RereadUuids(src, mark.value, now, next, k);
      DeltaUuids(src, s.index, next, s.watermark.value, k, S.UuidsIn(FullItems(src, now), k));
    } else {
      UuidsAfterGrowth(src, now, next, k);
      FullUuids(src, s.index, next, k);
    }
  }

  lemma {:induction false} RereadUuids(src: Source, mark: seq<File>, now: seq<File>, next: seq<File>, k: string)
    requires Snapshot(src, mark) && Snapshot(src, now) && Snapshot(src, next) && Grows(mark, now) && Grows(now, next)
    ensures S.UuidsIn(FullItems(src, now), k) + S.UuidsIn(Collect(Accepted(src.env), Past(FullMarks(mark)), next), k)
         == S.UuidsIn(FullItems(src, next), k)
  {
    GrowsTwice(mark, now, next);
    UuidsAfterGrowth(src, mark, now, k);
    UuidsAfterGrowth(src, now, next, k);
    UuidsAfterGrowth(src, mark, next, k);
  }

  ghost predicate Snapshots(src: Source, rounds: seq<Round>) {
    && (forall i :: 0 <= i < |rounds| ==> Snapshot(src, rounds[i].files))
    && (forall i :: 0 <= i < |rounds| - 1 ==> Grows(rounds[i].files, rounds[i + 1].files))
  }

  lemma {:induction false} SplitRounds(src: Source, rounds: seq<Round>)
    returns (front: seq<Round>, now: seq<File>, r: Round)
    requires |rounds| > 1 && Snapshots(src, rounds)
    ensures front == rounds[..|rounds| - 1] && front != [] && now == front[|front| - 1].files && r == rounds[|rounds| - 1]
    ensures now == rounds[|rounds| - 2].files
    ensures Snapshots(src, front) && Snapshot(src, now) && Snapshot(src, r.files) && Grows(now, r.files)
    ensures forall i :: 0 <= i < |front| ==> front[i] == rounds[i]
  {
    front, r := rounds[..|rounds| - 1], rounds[|rounds| - 1];
    now := front[|front| - 1].files;
    assert Grows(rounds[|rounds| - 2].files, rounds[|rounds| - 1].files);
  }

  lemma {:induction false} CrashesKeepUuids(src: Source, s: State, rounds: seq<Round>, k: string)
    returns (mark: Option<seq<File>>)
    requires HashesAreHex(src.env) && rounds != [] && s.watermark.None? && Snapshots(src, rounds)
    requires k in s.index ==> s.index[k].source == src.name
    ensures var last := rounds[|rounds| - 1];
            && UuidsAt(Survived(src, s, rounds).index, k) == Expected(S.UuidsIn(FullItems(src, last.files), k))
            && Behind(src, Survived(src, s, rounds), mark, last.files)
            && (last.kept ==> mark == Some(last.files))
  {
    if |rounds| == 1 {
      OneRound(src, s, rounds);
      FullUuids(src, s.index, rounds[0].files, k);
      GrowsInPlace(rounds[0].files);
      mark := if rounds[0].kept then Some(rounds[0].files) else None;
    } else {
      var front, now, r := SplitRounds(src, rounds);
      mark := CrashesKeepUuids(src, s, front, k);
      var before := Survived(src, s, front);
      RereadKeepsUuids(src, before, mark, now, r.files, k);
      CycleMarks(src, before, mark, now, r.files);
      mark := MarkAfter(src, before, mark, now, r);
    }
  }

  lemma {:induction false} MarkAfter(src: Source, s: State, mark: Option<seq<File>>, now: seq<File>, r: Round)
    returns (after: Option<seq<File>>)
    requires Snapshot(src, r.files) && Grows(now, r.files) && Behind(src, s, mark, now)
    requires CaughtUp(src, Cycle(src, s, r.files), r.files)
    ensures Behind(src, Survive(src, s, r), after, r.files) && after == if r.kept then Some(r.files) else mark
  {
    after := if r.kept then Some(r.files) else mark;
    GrowsInPlace(r.files);
    if mark.Some? { GrowsTwice(mark.value, now, r.files); }
  }

  lemma OneRound(src: Source, s: State, rounds: seq<Round>)
    requires |rounds| == 1 && s.watermark.None?
    ensures var full := Full(src, s.index, rounds[0].files);
            Survived(src, s, rounds) == if rounds[0].kept then full else State(full.index, None)
    ensures CaughtUp(src, Full(src, s.index, rounds[0].files), rounds[0].files)
  {
    assert rounds[..0] == [];
    assert Survived(src, s, rounds[..0]) == s;
  }

  /** Over every run of cycles, wherever the files grow and whichever cycles lose
      their watermark: the same sessions with the same sets of turn uuids as one
      full parse, and the same offsets and coverage once a watermark survives. */
  lemma {:induction false} CrashesLoseNoTurn(src: Source, s: State, rounds: seq<Round>, k: string)
    requires HashesAreHex(src.env) && rounds != [] && s.watermark.None? && Snapshots(src, rounds)
    requires k in s.index ==> s.index[k].source == src.name
    ensures var last, run := rounds[|rounds| - 1], Survived(src, s, rounds);
            var full := Full(src, s.index, last.files);
            && UuidsAt(run.index, k) == UuidsAt(full.index, k)
            && (last.kept ==>
                  && run.watermark.Some?
                  && run.watermark.value.files == full.watermark.value.files
                  && run.watermark.value.coverage == full.watermark.value.coverage)
  {
    var mark := CrashesKeepUuids(src, s, rounds, k);
    FullUuids(src, s.index, rounds[|rounds| - 1].files, k);
  }

  // -------------------------------------------------------- growth in file order

  /** Records merged onto an index that holds some of them already. */
  lemma {:induction false} MergeAgain(idx: Index, k: string, before: seq<Item>, again: seq<Item>, more: seq<Item>)
    requires S.At(idx, k) == S.Reference(before, k) && S.AllShaped(before)
    requires S.DedupsIn(again, k) <= S.DedupsIn(before, k) && S.NoClash(S.DedupsIn(before + more, k))
    ensures S.Merged(idx, k, again + more) == S.Reference(before + more, k)
  {
    S.MergeReachesWhole(idx, k, before, more);
    S.HasDedup(again, k);
    S.HasDedup(before, k);
    S.FirstOfMore(again, more, k);
    if S.FirstOf(again, k).Some? {
      var source := S.FirstOf(again, k).value.source;
      AgainAddsNothing(idx, k, before, again, more, source);
      if S.FirstOf(more, k).None? { S.NoItems(Seed(idx, k, source), k, more); }
    } else {
      NoneAgain(idx, k, again, more);
    }
  }

  lemma {:induction false} NoneAgain(idx: Index, k: string, again: seq<Item>, more: seq<Item>)
    requires S.FirstOf(again, k).None?
    ensures S.Merged(idx, k, again + more) == S.Merged(idx, k, more)
  {
    S.FirstOfMore(again, more, k);
    var first := S.FirstOf(more, k);
    if first.Some? {
      S.GrownOfMore(Seed(idx, k, first.value.source), k, again, more);
      S.NoItems(Seed(idx, k, first.value.source), k, again);
    }
  }

  lemma {:induction false} AgainAddsNothing(
    idx: Index, k: string, before: seq<Item>, again: seq<Item>, more: seq<Item>, source: string)
    requires S.At(idx, k) == S.Reference(before, k) && S.AllShaped(before) && S.FirstOf(before, k).Some?
    requires S.DedupsIn(again, k) <= S.DedupsIn(before, k)
    ensures k in idx
    ensures forall other :: Seed(idx, k, other) == Seed(idx, k, source)
    ensures S.Grown(Seed(idx, k, source), k, again + more) == S.Grown(Seed(idx, k, source), k, more)
  {
    var first := S.FirstOf(before, k).value.source;
    var start, whole, seed := Accum(NewEntry(first), {}, 0), S.Whole(before, k, first), Seed(idx, k, source);
    S.GrownUuids(start, k, before);
    S.GrownSeen(start, k, before);
    S.SeedingCovers(whole);
    assert whole.entry.session.turns == idx[k].session.turns;
    S.NothingNew(seed, k, again);
    S.GrownOfMore(seed, k, again, more);
  }

  lemma {:induction false} RereadItems(src: Source, mark: seq<File>, now: seq<File>, next: seq<File>)
    returns (again: seq<Item>, more: seq<Item>)
    requires Snapshot(src, mark) && Snapshot(src, now) && Snapshot(src, next)
    requires GrowsInOrder(mark, now) && GrowsInOrder(now, next)
    ensures Collect(Accepted(src.env), Past(FullMarks(mark)), next) == again + more
    ensures FullItems(src, now) == FullItems(src, mark) + again && FullItems(src, next) == FullItems(src, now) + more
  {
    InOrderTwice(mark, now, next);
    InOrderItems(src, mark, now);
    InOrderItems(src, now, next);
    InOrderItems(src, mark, next);
    again := Collect(Accepted(src.env), Past(FullMarks(mark)), now);
    more := Collect(Accepted(src.env), Past(FullMarks(now)), next);
    Cancel(FullItems(src, mark), Collect(Accepted(src.env), Past(FullMarks(mark)), next), again, more);
  }

  lemma Cancel<T>(a: seq<T>, b: seq<T>, c: seq<T>, d: seq<T>)
    requires a + b == (a + c) + d
    ensures b == c + d
  {
    assert b == (a + b)[|a|..];
    assert c + d == ((a + c) + d)[|a|..];
  }

  ghost predicate BehindInOrder(src: Source, s: State, mark: Option<seq<File>>, now: seq<File>) {
    Behind(src, s, mark, now) && (mark.Some? ==> GrowsInOrder(mark.value, now))
  }

  lemma {:induction false} RereadKeepsReference(
    src: Source, s: State, mark: Option<seq<File>>, now: seq<File>, next: seq<File>, k: string)
    requires HashesAreHex(src.env) && Snapshot(src, now) && Snapshot(src, next) && GrowsInOrder(now, next)
    requires BehindInOrder(src, s, mark, now) && S.At(s.index, k) == S.Reference(FullItems(src, now), k)
    requires S.NoClash(S.DedupsIn(FullItems(src, next), k))
    ensures S.At(Cycle(src, s, next).index, k) == S.Reference(FullItems(src, next), k)
  {
    if Usable(src, s.index, next, s.watermark) {
      var again, more := RereadItems(src, mark.value, now, next);
      DeltaAt(src, s.index, next, s.watermark.value, k);
      ItemsAreShaped(src.env, Whole, now);
      S.DedupsOfMore(FullItems(src, mark.value), again, k);
      MergeAgain(s.index, k, FullItems(src, now), again, more);
    } else {
      InOrderItems(src, now, next);
      S.FirstOfMore(FullItems(src, now), Collect(Accepted(src.env), Past(FullMarks(now)), next), k);
      FullAt(src, s.index, next, k);
    }
  }

  ghost predicate InOrderRounds(rounds: seq<Round>) {
    forall i :: 0 <= i < |rounds| - 1 ==> GrowsInOrder(rounds[i].files, rounds[i + 1].files)
  }

  lemma {:induction false} CrashesKeepReference(src: Source, s: State, rounds: seq<Round>, k: string)
    returns (mark: Option<seq<File>>)
    requires HashesAreHex(src.env) && rounds != [] && s.watermark.None? && Snapshots(src, rounds) && InOrderRounds(rounds)
    requires k in s.index ==> s.index[k].source == src.name
    requires S.NoClash(S.DedupsIn(FullItems(src, rounds[|rounds| - 1].files), k))
    ensures var last := rounds[|rounds| - 1];
            && S.At(Survived(src, s, rounds).index, k) == S.Reference(FullItems(src, last.files), k)
            && BehindInOrder(src, Survived(src, s, rounds), mark, last.files)
  {
    if |rounds| == 1 {
      OneRound(src, s, rounds);
      FullAt(src, s.index, rounds[0].files, k);
      InOrderInPlace(rounds[0].files);
      mark := if rounds[0].kept then Some(rounds[0].files) else None;
    } else {
      var front, now, r := SplitRounds(src, rounds);
      assert GrowsInOrder(rounds[|rounds| - 2].files, rounds[|rounds| - 1].files);
      InOrderItems(src, now, r.files);
      S.DedupsOfMore(FullItems(src, now), Collect(Accepted(src.env), Past(FullMarks(now)), r.files), k);
      mark := CrashesKeepReference(src, s, front, k);
      var before := Survived(src, s, front);
      RereadKeepsReference(src, before, mark, now, r.files, k);
      CycleMarks(src, before, mark, now, r.files);
      if mark.Some? { InOrderTwice(mark.value, now, r.files); }
      InOrderInPlace(r.files);
      mark := MarkAfter(src, before, mark, now, r);
    }
  }

  /** Over every run of cycles whose new bytes follow the consumed ones in file
      order, whichever cycles lose their watermark: each session ends with the
      turns, indexes, title, identity and time bounds of one full parse. */
  lemma {:induction false} CrashesEqualFullParse(src: Source, s: State, rounds: seq<Round>, k: string)
    requires HashesAreHex(src.env) && rounds != [] && s.watermark.None? && Snapshots(src, rounds) && InOrderRounds(rounds)
    requires k in s.index ==> s.index[k].source == src.name
    requires S.NoClash(S.DedupsIn(FullItems(src, rounds[|rounds| - 1].files), k))
    ensures S.At(Survived(src, s, rounds).index, k) == S.At(Full(src, s.index, rounds[|rounds| - 1].files).index, k)
  {
    var mark := CrashesKeepReference(src, s, rounds, k);
    FullAt(src, s.index, rounds[|rounds| - 1].files, k);
  }
}
