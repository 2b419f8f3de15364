/** Why the coverage results ask for unread tails: a record still without its
    newline is counted by a full parse and again by the delta that reads its line
    (internal/conversations/ingest_watermark.go:366-405). */
module TornTail {
  import opened Prelude
  import opened Lines
  import opened Coverage
  import opened Ingest
  import opened IngestDelta
  import opened IngestFiles
  import opened IngestTheorems
  import SessionIndexing

  function TailOf(f: File): Bytes { f.data[LastComplete(f.data)..] }

  /** The unterminated tail of the file yields nothing. */
  predicate TailSkipped<T>(pick: Bytes -> Option<T>, f: File) {
    AtBoundary(f.data) || pick(DropCR(TailOf(f))).None?
  }

  lemma {:induction false} TailAdds<T>(pick: Bytes -> Option<T>, f: File)
    ensures Picked(pick, f.data) == Picked(pick, f.data[..LastComplete(f.data)]) + TailPart(pick, f)
  {
    var whole, tail := SessionIndexing.SplitAtLastLine(f.data);
    assert whole == f.data[..LastComplete(f.data)];
    if tail == [] {
      assert whole == f.data;
      assert Picked(pick, whole) + [] == Picked(pick, whole);
    } else {
      PickedOfMore(pick, whole, tail);
      OneToken(pick, tail);
    }
  }

  function TailPart<T>(pick: Bytes -> Option<T>, f: File): seq<T> {
    if AtBoundary(f.data) then [] else First(pick(DropCR(TailOf(f))))
  }

  /** A full parse collects no fewer records than the complete lines hold, and as
      many exactly when no tail yields one. */
  lemma {:induction false} TailsAdd<T>(pick: Bytes -> Option<T>, files: seq<File>)
    ensures |Collect(pick, Complete, files)| <= |Collect(pick, Whole, files)|
    ensures |Collect(pick, Complete, files)| == |Collect(pick, Whole, files)| <==>
            (forall i :: 0 <= i < |files| ==> TailSkipped(pick, files[i]))
    ensures (forall i :: 0 <= i < |files| ==> TailSkipped(pick, files[i])) ==>
            Collect(pick, Complete, files) == Collect(pick, Whole, files)
  {
    if files != [] {
      var front, f := SplitLast(files);
      TailsAdd(pick, front);
      TailAdds(pick, f);
      var c, c1 := CollectLast(pick, Complete, files, front, f);
      var w, w1 := CollectLast(pick, Whole, files, front, f);
      assert w1 == c1 + TailPart(pick, f);
      assert |TailPart(pick, f)| == 0 <==> TailSkipped(pick, f);
      AllSkipped(pick, files, front, f);
    }
  }

  lemma AllSkipped<T>(pick: Bytes -> Option<T>, files: seq<File>, front: seq<File>, f: File)
    requires files == front + [f]
    ensures (forall i :: 0 <= i < |files| ==> TailSkipped(pick, files[i])) <==>
            (forall i :: 0 <= i < |front| ==> TailSkipped(pick, front[i])) && TailSkipped(pick, f)
  {
    assert files[|front|] == f;
    assert forall i :: 0 <= i < |front| ==> files[i] == front[i];
  }

  // ------------------------------------------------------ counting and sums

  function Counted(c: SourceCoverage): nat { c.mapped + c.quarantined }

  lemma {:induction false} CountsEach(events: seq<Event>)
    ensures Counted(CountAll(Nothing, events)) == |events|
  {
    if events != [] { CountsEach(events[..|events| - 1]); }
  }

  lemma CountsAdd(a: SourceCoverage, b: SourceCoverage)
    ensures Counted(Add(a, b)) == Counted(a) + Counted(b)
  {
  }

  // ---------------------------------------------------------------- the result

  /** The watermark a full parse leaves is usable after any growth. */
  lemma {:induction false} FullIsUsable(src: Source, idx: Index, prev: seq<File>, next: seq<File>)
    requires Sorted(prev) && Sorted(next) && Grows(prev, next)
    ensures var s := Full(src, idx, prev); Usable(src, s.index, next, s.watermark)
  {
    var s := Full(src, idx, prev);
    FullMarksAre(prev);
    GrowthIsMarked(prev, next);
    assert AllWithin(FullMarks(prev), next) by {
      forall i | 0 <= i < |next| ensures Offset(FullMarks(prev), next[i]) <= |next[i].data| {
        assert MarkedAtLine(FullMarks(prev), next[i]);
      }
    }
  }

  lemma {:induction false} CompleteAfterGrowth(src: Source, prev: seq<File>, next: seq<File>)
    requires Sorted(prev) && Snapshot(src, next) && Grows(prev, next)
    ensures FullCoverage(src, next) == Add(CoverageIn(src, Complete, prev), DeltaCoverage(src, next, FullMarks(prev)))
  {
    var marks, pick := FullMarks(prev), CountedFor(src.env, src.name);
    GrowthIsMarked(prev, next);
    SkipsLemma(src.env, src.name);
    TailsAddNothing(src.env, pick, next);
    BelowIsPrevious(pick, marks, prev, next);
    CoverageTiles(src, marks, next);
  }

  /** Any number of files, any tails, any growth: after a full parse and the cycle
      that follows it, the watermark's coverage is the full parse's if and only if
      no unterminated tail was counted for the source when the first parse read it.
      (The later files' own tails are unread.) */
  lemma {:induction false} CoverageSurvivesTornTailsIffUncounted(
    src: Source, idx: Index, prev: seq<File>, next: seq<File>)
    requires Sorted(prev) && Snapshot(src, next) && Grows(prev, next)
    ensures Cycle(src, Full(src, idx, prev), next).watermark.Some?
    ensures Cycle(src, Full(src, idx, prev), next).watermark.value.coverage == FullCoverage(src, next) <==>
            (forall i :: 0 <= i < |prev| ==> TailSkipped(CountedFor(src.env, src.name), prev[i]))
  {
    var pick, marks := CountedFor(src.env, src.name), FullMarks(prev);
    FullIsUsable(src, idx, prev, next);
    CompleteAfterGrowth(src, prev, next);
    TailsAdd(pick, prev);
    var whole, complete, past := FullCoverage(src, prev), CoverageIn(src, Complete, prev), DeltaCoverage(src, next, marks);
    CountsEach(Collect(pick, Whole, prev));
    CountsEach(Collect(pick, Complete, prev));
    CountsAdd(whole, past);
    CountsAdd(complete, past);
  }
}
