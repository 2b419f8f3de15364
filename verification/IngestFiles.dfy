/** What the marks of an append-only set of files cut out of it: the parts below
    and past the marks tile the complete lines. */
module IngestFiles {
  import opened Prelude
  import opened Lines
  import opened Coverage
  import opened Ingest
  import opened IngestDelta
  import SessionIndexing

  // ------------------------------------------------------------- one file

  lemma {:induction false} PickedOfMore<T>(pick: Bytes -> Option<T>, a: Bytes, b: Bytes)
    requires AtBoundary(a)
    ensures Picked(pick, a + b) == Picked(pick, a) + Picked(pick, b)
    decreases |a|
  {
    if a == [] {
      assert a + b == b;
    } else {
      FirstToken(a, b);
      AdvanceWithin(a, b);
      PickedOfMore(pick, a[Advance(a)..], b);
    }
  }

  predicate Sorted(files: seq<File>) {
    forall i, j :: 0 <= i < j < |files| ==> Less(files[i].name, files[j].name)
  }

  /** Every file is kept and only appended to; files may appear. */
  predicate Grows(prev: seq<File>, next: seq<File>) {
    forall i :: 0 <= i < |prev| ==> KeptIn(prev[i], next)
  }

  predicate KeptIn(f: File, next: seq<File>) {
    exists j :: 0 <= j < |next| && next[j].name == f.name && f.data <= next[j].data
  }

  /** The marks lie at line boundaries within the files. */
  predicate MarkedAtLines(marks: Marks, files: seq<File>) {
    forall i :: 0 <= i < |files| ==> MarkedAtLine(marks, files[i])
  }

  predicate MarkedAtLine(marks: Marks, f: File) {
    Offset(marks, f) <= |f.data| && AtBoundary(f.data[..Offset(marks, f)])
  }

  lemma {:induction false} SplitLast(files: seq<File>) returns (front: seq<File>, f: File)
    requires files != []
    ensures front == files[..|files| - 1] && f == files[|files| - 1] && files == front + [f]
  {
    front, f := files[..|files| - 1], files[|files| - 1];
  }

  /** The consumed bytes and the new complete lines tile the complete lines. */
  lemma {:induction false} PartsTile(marks: Marks, f: File)
    requires MarkedAtLine(marks, f)
    ensures Complete(f) == Below(marks)(f) + PastMark(marks, f)
    ensures Offset(marks, f) + |PastMark(marks, f)| == LastComplete(f.data)
  {
    CutLandsOnLastComplete(f.data, Offset(marks, f));
  }

  /** The unterminated tail is not a record that a full parse would count. */
  predicate TailUnread(env: Env, f: File) {
    AtBoundary(f.data) ||
    var v := Classify(env, DropCR(f.data[LastComplete(f.data)..]));
    v.Ignored? || v.UnknownSchema? || v.Rejected?
  }

  predicate TailsUnread(env: Env, files: seq<File>) {
    forall i :: 0 <= i < |files| ==> TailUnread(env, files[i])
  }

  /** A pick that takes nothing from lines that are neither accepted nor counted. */
  ghost predicate Skips<T>(env: Env, pick: Bytes -> Option<T>) {
    forall token: Bytes ::
      var v := Classify(env, token);
      (v.Ignored? || v.UnknownSchema? || v.Rejected?) ==> pick(token).None?
  }

  lemma {:induction false} OneToken<T>(pick: Bytes -> Option<T>, tail: Bytes)
    requires tail != [] && forall i :: 0 <= i < |tail| ==> tail[i] != NL
    ensures Picked(pick, tail) == First(pick(DropCR(tail)))
  {
    SessionIndexing.OneLine(tail);
    assert Token(tail) == DropCR(tail) by { assert tail[..|tail|] == tail; }
    assert tail[|tail|..] == [];
    assert Picked(pick, tail[|tail|..]) == [];
  }

  lemma {:induction false} TailAddsNothing<T>(env: Env, pick: Bytes -> Option<T>, f: File)
    requires TailUnread(env, f) && Skips(env, pick)
    ensures Picked(pick, f.data) == Picked(pick, f.data[..LastComplete(f.data)])
  {
    var whole, tail := SessionIndexing.SplitAtLastLine(f.data);
    assert whole == f.data[..LastComplete(f.data)];
    if tail == [] {
      assert whole == f.data;
    } else {
      PickedOfMore(pick, whole, tail);
      OneToken(pick, tail);
    }
  }

  lemma {:induction false} TailsAddNothing<T>(env: Env, pick: Bytes -> Option<T>, files: seq<File>)
    requires TailsUnread(env, files) && Skips(env, pick)
    ensures Collect(pick, Whole, files) == Collect(pick, Complete, files)
  {
    if files != [] {
      var f := files[|files| - 1];
      TailsAddNothing(env, pick, files[..|files| - 1]);
      TailAddsNothing(env, pick, f);
    }
  }

  // ------------------------------------------------------------- all files

  lemma {:induction false} FullMarksAre(files: seq<File>)
    requires Sorted(files)
    ensures FullMarks(files).Keys == Names(files)
    ensures forall i :: 0 <= i < |files| ==>
              files[i].name in FullMarks(files) &&
              FullMarks(files)[files[i].name] == Mark(LastComplete(files[i].data), |files[i].data|)
  {
    if files != [] {
      var front, f := SplitLast(files);
      FullMarksAre(front);
      forall i | 0 <= i < |front| ensures front[i].name != f.name {
        assert Less(files[i].name, files[|files| - 1].name);
        LessIrreflexive(f.name);
      }
    }
  }

  /** After growth, the marks of the earlier files cut each file where its earlier
      version ended, and cut new files at zero. */
  predicate BelowIs(marks: Marks, prev: seq<File>, next: seq<File>) {
    forall i :: 0 <= i < |next| ==>
      && (next[i].name !in Names(prev) ==> Below(marks)(next[i]) == [])
      && forall j :: 0 <= j < |prev| && prev[j].name == next[i].name ==> Below(marks)(next[i]) == Complete(prev[j])
  }

  lemma {:induction false} SameName(files: seq<File>, i: nat, j: nat)
    requires Sorted(files) && i < |files| && j < |files| && files[i].name == files[j].name
    ensures i == j
  {
    LessIrreflexive(files[i].name);
  }

  lemma {:induction false} OldFile(prev: seq<File>, next: seq<File>, j: nat, i: nat)
    requires Sorted(prev) && Sorted(next) && Grows(prev, next)
    requires j < |prev| && i < |next| && prev[j].name == next[i].name
    ensures MarkedAtLine(FullMarks(prev), next[i]) && Below(FullMarks(prev))(next[i]) == Complete(prev[j])
  {
    FullMarksAre(prev);
    var p, f := prev[j], next[i];
    assert KeptIn(p, next);
    var n :| 0 <= n < |next| && next[n].name == p.name && p.data <= next[n].data;
    SameName(next, n, i);
    var off := LastComplete(p.data);
    assert Offset(FullMarks(prev), f) == off;
    LastCompleteIsGreatest(p.data);
    assert f.data[..off] == p.data[..off];
  }

  lemma {:induction false} NewFile(prev: seq<File>, f: File)
    requires Sorted(prev) && f.name !in Names(prev)
    ensures MarkedAtLine(FullMarks(prev), f) && Below(FullMarks(prev))(f) == []
  {
    FullMarksAre(prev);
  }

  lemma {:induction false} GrowthOfFile(prev: seq<File>, next: seq<File>, i: nat)
    requires Sorted(prev) && Sorted(next) && Grows(prev, next) && i < |next|
    ensures var marks := FullMarks(prev);
            && MarkedAtLine(marks, next[i])
            && (next[i].name !in Names(prev) ==> Below(marks)(next[i]) == [])
            && forall j :: 0 <= j < |prev| && prev[j].name == next[i].name ==> Below(marks)(next[i]) == Complete(prev[j])
  {
    if next[i].name in Names(prev) {
      var p :| p in prev && p.name == next[i].name;
      var n :| 0 <= n < |prev| && prev[n] == p;
      OldFile(prev, next, n, i);
      forall j | 0 <= j < |prev| && prev[j].name == next[i].name
        ensures Below(FullMarks(prev))(next[i]) == Complete(prev[j])
      {
        OldFile(prev, next, j, i);
      }
    } else {
      NewFile(prev, next[i]);
      forall j | 0 <= j < |prev| ensures prev[j].name != next[i].name { assert prev[j] in prev; }
    }
  }

  lemma {:induction false} GrowthIsMarked(prev: seq<File>, next: seq<File>)
    requires Sorted(prev) && Sorted(next) && Grows(prev, next)
    ensures MarkedAtLines(FullMarks(prev), next) && BelowIs(FullMarks(prev), prev, next)
    ensures Names(prev) <= Names(next)
  {
    forall i | 0 <= i < |next| ensures MarkedAtLine(FullMarks(prev), next[i]) { GrowthOfFile(prev, next, i); }
    forall i | 0 <= i < |next|
      ensures next[i].name !in Names(prev) ==> Below(FullMarks(prev))(next[i]) == []
      ensures forall j :: 0 <= j < |prev| && prev[j].name == next[i].name ==>
                Below(FullMarks(prev))(next[i]) == Complete(prev[j])
    {
      GrowthOfFile(prev, next, i);
    }
    forall name | name in Names(prev) ensures name in Names(next) {
      var p :| p in prev && p.name == name;
      var i :| 0 <= i < |prev| && prev[i] == p;
      assert KeptIn(prev[i], next);
      var j :| 0 <= j < |next| && next[j].name == prev[i].name && prev[i].data <= next[j].data;
      assert next[j] in next;
    }
  }

  /** The last file of next is the last of prev, if it was there at all. */
  lemma {:induction false} LastName(prev: seq<File>, next: seq<File>)
    requires Sorted(prev) && Sorted(next) && Names(prev) <= Names(next)
    requires next != [] && next[|next| - 1].name in Names(prev)
    ensures prev != [] && prev[|prev| - 1].name == next[|next| - 1].name
  {
    var n, p := |next| - 1, |prev| - 1;
    var f :| f in prev && f.name == next[n].name;
    var i :| 0 <= i < |prev| && prev[i] == f;
    assert prev[p] in prev && prev[p].name in Names(next);
    var g :| g in next && g.name == prev[p].name;
    var j :| 0 <= j < |next| && next[j] == g;
    if i < p && j < n {
      LessTransitive(prev[i].name, prev[p].name, next[n].name);
      LessIrreflexive(next[n].name);
    } else if i < p {
      LessIrreflexive(next[n].name);
    } else if j < n {
      LessIrreflexive(next[n].name);
    }
  }

  lemma {:induction false} FrontNames(files: seq<File>)
    requires files != [] && Sorted(files)
    ensures Sorted(files[..|files| - 1]) && Names(files[..|files| - 1]) == Names(files) - {files[|files| - 1].name}
  {
    var front, f := files[..|files| - 1], files[|files| - 1];
    assert files == front + [f];
    forall i | 0 <= i < |front| ensures front[i].name != f.name {
      assert Less(files[i].name, files[|files| - 1].name);
      LessIrreflexive(f.name);
    }
    forall name | name in Names(files) && name != f.name ensures name in Names(front) {
      var g :| g in files && g.name == name;
      assert g in front;
    }
  }

  /** What lies below the marks is what the earlier files completed. */
  lemma {:induction false} BelowIsPrevious<T>(pick: Bytes -> Option<T>, marks: Marks, prev: seq<File>, next: seq<File>)
    requires Sorted(prev) && Sorted(next) && Names(prev) <= Names(next) && BelowIs(marks, prev, next)
    ensures Collect(pick, Below(marks), next) == Collect(pick, Complete, prev)
    decreases |next|
  {
    if next == [] {
      if prev != [] { assert prev[0].name in Names(prev); }
    } else {
      var nextFront, n := next[..|next| - 1], next[|next| - 1];
      FrontNames(next);
      if n.name in Names(prev) {
        LastName(prev, next);
        FrontNames(prev);
        var prevFront := prev[..|prev| - 1];
        FrontBelow(marks, prev, next);
        BelowIsPrevious(pick, marks, prevFront, nextFront);
      } else {
        assert BelowIs(marks, prev, nextFront);
        BelowIsPrevious(pick, marks, prev, nextFront);
      }
    }
  }

  lemma {:induction false} FrontBelow(marks: Marks, prev: seq<File>, next: seq<File>)
    requires Sorted(prev) && Sorted(next) && BelowIs(marks, prev, next)
    requires prev != [] && next != [] && prev[|prev| - 1].name == next[|next| - 1].name
    ensures BelowIs(marks, prev[..|prev| - 1], next[..|next| - 1])
  {
    var prevFront, nextFront := prev[..|prev| - 1], next[..|next| - 1];
    FrontNames(prev);
    forall i | 0 <= i < |nextFront|
      ensures nextFront[i].name !in Names(prevFront) ==> Below(marks)(nextFront[i]) == []
      ensures forall j :: 0 <= j < |prevFront| && prevFront[j].name == nextFront[i].name ==>
                Below(marks)(nextFront[i]) == Complete(prevFront[j])
    {
      assert next[i] == nextFront[i];
      if next[i].name == next[|next| - 1].name { SameName(next, i, |next| - 1); }
      forall j | 0 <= j < |prevFront| && prevFront[j].name == nextFront[i].name
        ensures Below(marks)(nextFront[i]) == Complete(prevFront[j])
      {
        assert prev[j] == prevFront[j];
      }
    }
  }

  lemma {:induction false} MarksMoveOn(marks: Marks, files: seq<File>)
    requires MarkedAtLines(marks, files)
    ensures NextMarks(marks, files) == FullMarks(files)
  {
    if files != [] {
      var front, f := SplitLast(files);
      MarksMoveOn(marks, front);
      PartsTile(marks, f);
      OneMarkMoves(marks, files, front, f);
    }
  }

  lemma {:induction false} OneMarkMoves(marks: Marks, files: seq<File>, front: seq<File>, f: File)
    requires files != [] && front == files[..|files| - 1] && f == files[|files| - 1]
    requires NextMarks(marks, front) == FullMarks(front)
    requires Offset(marks, f) + |PastMark(marks, f)| == LastComplete(f.data)
    ensures NextMarks(marks, files) == FullMarks(files)
  {
  }

  lemma {:induction false} CollectLast<T>(pick: Bytes -> Option<T>, cut: Cut, files: seq<File>, front: seq<File>, f: File)
    returns (head: seq<T>, tail: seq<T>)
    requires files != [] && front == files[..|files| - 1] && f == files[|files| - 1]
    ensures head == Collect(pick, cut, front) && tail == Picked(pick, cut(f))
    ensures Collect(pick, cut, files) == head + tail
  {
    head, tail := Collect(pick, cut, front), Picked(pick, cut(f));
  }

  lemma {:induction false} FileTiles<T>(pick: Bytes -> Option<T>, marks: Marks, f: File)
    requires MarkedAtLine(marks, f)
    ensures Picked(pick, Complete(f)) == Picked(pick, Below(marks)(f)) + Picked(pick, PastMark(marks, f))
  {
    PartsTile(marks, f);
    PickedOfMore(pick, Below(marks)(f), PastMark(marks, f));
  }

  // ------------------------------------------------------- growth in order

  /** New bytes follow all consumed bytes in file order: once a file has new lines,
      nothing of a later file was consumed. */
  predicate InOrder(marks: Marks, files: seq<File>) {
    forall i, j :: 0 <= i < j < |files| && PastMark(marks, files[i]) != [] ==> Offset(marks, files[j]) == 0
  }

  lemma {:induction false} NothingPast<T>(pick: Bytes -> Option<T>, marks: Marks, files: seq<File>)
    requires forall i :: 0 <= i < |files| ==> PastMark(marks, files[i]) == []
    ensures Collect(pick, Past(marks), files) == []
  {
    if files != [] { NothingPast(pick, marks, files[..|files| - 1]); }
  }

  lemma {:induction false} Regroup<T>(a: seq<T>, b: seq<T>, c: seq<T>, d: seq<T>)
    requires b == [] || c == []
    ensures (a + b) + (c + d) == (a + c) + (b + d)
  {
  }

  /** Then the records of the complete lines are the consumed ones followed by the
      new ones. */
  lemma {:induction false} InOrderAppends<T>(pick: Bytes -> Option<T>, marks: Marks, files: seq<File>)
    requires MarkedAtLines(marks, files) && InOrder(marks, files)
    ensures Collect(pick, Complete, files) == Collect(pick, Below(marks), files) + Collect(pick, Past(marks), files)
  {
    if files == [] {
      assert Collect(pick, Complete, files) == [];
    } else {
      var front, f := files[..|files| - 1], files[|files| - 1];
      InOrderAppends(pick, marks, front);
      FileTiles(pick, marks, f);
      OnlyOneSide(pick, marks, files, front, f);
      var c, c1 := CollectLast(pick, Complete, files, front, f);
      var b, b1 := CollectLast(pick, Below(marks), files, front, f);
      var p, p1 := CollectLast(pick, Past(marks), files, front, f);
      Regroup(b, p, b1, p1);
    }
  }

  lemma {:induction false} OnlyOneSide<T>(
    pick: Bytes -> Option<T>, marks: Marks, files: seq<File>, front: seq<File>, f: File)
    requires files != [] && front == files[..|files| - 1] && f == files[|files| - 1] && InOrder(marks, files)
    ensures Collect(pick, Past(marks), front) == [] || Picked(pick, Below(marks)(f)) == []
  {
    if i :| 0 <= i < |front| && PastMark(marks, front[i]) != [] {
      assert PastMark(marks, files[i]) != [];
      assert Below(marks)(f) == [];
    } else {
      NothingPast(pick, marks, front);
    }
  }

  // ----------------------------------------------------------- any growth

  /** What holds of every record a line can yield holds of the collected ones. */
  lemma {:induction false} PickedAll<T>(pick: Bytes -> Option<T>, p: T -> bool, data: Bytes)
    requires forall token: Bytes :: pick(token).Some? ==> p(pick(token).value)
    ensures forall i :: 0 <= i < |Picked(pick, data)| ==> p(Picked(pick, data)[i])
    decreases |data|
  {
    if data != [] {
      PickedAll(pick, p, data[Advance(data)..]);
      assert pick(Token(data)).Some? ==> p(pick(Token(data)).value);
    }
  }

  lemma {:induction false} CollectAll<T>(pick: Bytes -> Option<T>, p: T -> bool, cut: Cut, files: seq<File>)
    requires forall token: Bytes :: pick(token).Some? ==> p(pick(token).value)
    ensures forall i :: 0 <= i < |Collect(pick, cut, files)| ==> p(Collect(pick, cut, files)[i])
  {
    if files != [] {
      CollectAll(pick, p, cut, files[..|files| - 1]);
      PickedAll(pick, p, cut(files[|files| - 1]));
    }
  }

  /** The only refs a source's records set while the mapping stays the same. */
  function RefsFor(src: Source): Refs {
    match src.env.ontology
    case None => Refs("", "")
    case Some(ont) => Refs(ont.ref, ont.mappingRef(src.name))
  }

  lemma {:induction false} OneMappingHolds(src: Source, cut: Cut, files: seq<File>)
    ensures OneMapping(Collect(CountedFor(src.env, src.name), cut, files), RefsFor(src))
  {
    var refs := RefsFor(src);
    CollectAll(CountedFor(src.env, src.name), (e: Event) => SetBy(e).Some? ==> SetBy(e).value == refs, cut, files);
  }

  function CoverageIn(src: Source, cut: Cut, files: seq<File>): SourceCoverage {
    CountAll(Nothing, Collect(CountedFor(src.env, src.name), cut, files))
  }

  lemma {:induction false} PlusRearranges(a: Counts, b: Counts, c: Counts, d: Counts)
    ensures Plus(Plus(a, b), Plus(c, d)) == Plus(Plus(a, c), Plus(b, d))
  {
    var ab, cd, ac, bd := Plus(a, b), Plus(c, d), Plus(a, c), Plus(b, d);
    forall k ensures Of(Plus(ab, cd), k) == Of(Plus(ac, bd), k) {
      SumAt(a, b, k);
      SumAt(c, d, k);
      SumAt(a, c, k);
      SumAt(b, d, k);
      SumAt(ab, cd, k);
      SumAt(ac, bd, k);
    }
    SumKeys(a, b, c, d);
    SameCounts(Plus(ab, cd), Plus(ac, bd));
  }

  lemma SumKeys(a: Counts, b: Counts, c: Counts, d: Counts)
    ensures Plus(Plus(a, b), Plus(c, d)).Keys == Plus(Plus(a, c), Plus(b, d)).Keys
  {
    forall k ensures k in Plus(Plus(a, b), Plus(c, d)) <==> k in Plus(Plus(a, c), Plus(b, d)) {
    }
  }

  lemma SameCounts(a: Counts, b: Counts)
    requires a.Keys == b.Keys && forall k :: Of(a, k) == Of(b, k)
    ensures a == b
  {
    forall k | k in a ensures a[k] == b[k] { assert Of(a, k) == Of(b, k); }
  }

  lemma SumAt(a: Counts, b: Counts, k: string)
    ensures Of(Plus(a, b), k) == Of(a, k) + Of(b, k)
  {
  }

  lemma {:induction false} AddRearranges(
    a: SourceCoverage, b: SourceCoverage, c: SourceCoverage, d: SourceCoverage, refs: Refs)
    requires RefsOf(a, refs) && RefsOf(b, refs) && RefsOf(c, refs) && RefsOf(d, refs)
    ensures Add(Add(a, b), Add(c, d)) == Add(Add(a, c), Add(b, d))
  {
    PlusRearranges(a.unmapped, b.unmapped, c.unmapped, d.unmapped);
  }

  /** Both parts grow, and the whole with them. */
  lemma {:induction false} SumsGrow(
    all: seq<Event>, below: seq<Event>, past: seq<Event>, a: seq<Event>, b: seq<Event>, c: seq<Event>, refs: Refs)
    requires OneMapping(all, refs) && OneMapping(below, refs) && OneMapping(past, refs)
    requires OneMapping(a, refs) && OneMapping(b, refs) && OneMapping(c, refs) && c == a + b
    requires CountAll(Nothing, all) == Add(CountAll(Nothing, below), CountAll(Nothing, past))
    ensures CountAll(Nothing, all + c) == Add(CountAll(Nothing, below + a), CountAll(Nothing, past + b))
  {
    CoverageOfConcatenation(all, c, refs);
    CoverageOfConcatenation(a, b, refs);
    CoverageOfConcatenation(below, a, refs);
    CoverageOfConcatenation(past, b, refs);
    RefsStay(below, Nothing, refs);
    RefsStay(past, Nothing, refs);
    RefsStay(a, Nothing, refs);
    RefsStay(b, Nothing, refs);
    AddRearranges(CountAll(Nothing, below), CountAll(Nothing, past), CountAll(Nothing, a), CountAll(Nothing, b), refs);
  }

  lemma {:induction false} OneMappingOfFile(src: Source, cut: Cut, f: File)
    ensures OneMapping(Picked(CountedFor(src.env, src.name), cut(f)), RefsFor(src))
  {
    var refs := RefsFor(src);
    PickedAll(CountedFor(src.env, src.name), (e: Event) => SetBy(e).Some? ==> SetBy(e).value == refs, cut(f));
  }

  /** Coverage of the complete lines is the sum of what was consumed and what is
      new, wherever the files grew. */
  lemma {:induction false} CoverageTiles(src: Source, marks: Marks, files: seq<File>)
    requires MarkedAtLines(marks, files)
    ensures CoverageIn(src, Complete, files)
         == Add(CoverageIn(src, Below(marks), files), CoverageIn(src, Past(marks), files))
  {
    if files == [] {
      NoFiles(src, Complete);
      NoFiles(src, Below(marks));
      NoFiles(src, Past(marks));
      NothingAdded(Nothing, Nothing);
    } else {
      var front, f := SplitLast(files);
      CoverageTiles(src, marks, front);
      CoverageTilesStep(src, marks, files, front, f);
    }
  }

  lemma {:induction false} CoverageTilesStep(src: Source, marks: Marks, files: seq<File>, front: seq<File>, f: File)
    requires files != [] && front == files[..|files| - 1] && f == files[|files| - 1] && MarkedAtLine(marks, f)
    requires CoverageIn(src, Complete, front)
          == Add(CoverageIn(src, Below(marks), front), CoverageIn(src, Past(marks), front))
    ensures CoverageIn(src, Complete, files)
         == Add(CoverageIn(src, Below(marks), files), CoverageIn(src, Past(marks), files))
  {
    FileTiles(CountedFor(src.env, src.name), marks, f);
    var c, c1 := CollectOneMapping(src, Complete, files, front, f);
    var b, b1 := CollectOneMapping(src, Below(marks), files, front, f);
    var p, p1 := CollectOneMapping(src, Past(marks), files, front, f);
    SumsGrow(c, b, p, b1, p1, c1, RefsFor(src));
  }

  lemma {:induction false} NoFiles(src: Source, cut: Cut)
    ensures CoverageIn(src, cut, []) == Nothing
  {
    assert Collect(CountedFor(src.env, src.name), cut, []) == [];
  }

  lemma {:induction false} CollectOneMapping(src: Source, cut: Cut, files: seq<File>, front: seq<File>, f: File)
    returns (head: seq<Event>, tail: seq<Event>)
    requires files != [] && front == files[..|files| - 1] && f == files[|files| - 1]
    ensures tail == Picked(CountedFor(src.env, src.name), cut(f))
    ensures CountAll(Nothing, head) == CoverageIn(src, cut, front)
    ensures CountAll(Nothing, head + tail) == CoverageIn(src, cut, files)
    ensures OneMapping(head, RefsFor(src)) && OneMapping(tail, RefsFor(src))
  {
    head, tail := CollectLast(CountedFor(src.env, src.name), cut, files, front, f);
    OneMappingHolds(src, cut, front);
    OneMappingOfFile(src, cut, f);
  }
}
