/** Delta ingest against a per-source watermark
    (internal/conversations/ingest_watermark.go) and the full re-parse it must
    agree with (`applyIngestSource`, internal/conversations/provider.go:1712-1794). */
module IngestDelta {
  import opened Prelude
  import opened Lines
  import opened Coverage
  import opened Ingest

  /** One ingest file as the cycle finds it; `name` is its basename. */
  datatype File = File(name: string, data: Bytes, mtime: Time)

  datatype Mark = Mark(offset: nat, size: nat)

  type Marks = map<string, Mark>

  datatype Watermark = Watermark(
    fingerprint: string, files: Marks, coverage: SourceCoverage, sessions: map<string, nat>)

  /** The configured source, with the mapping in force and its fingerprint. */
  datatype Source = Source(name: string, env: Env, fingerprint: string)

  // --------------------------------------------------------- parts of the files

  type Cut = File -> Bytes

  const Whole: Cut := (f: File) => f.data
  const Complete: Cut := (f: File) => f.data[..LastComplete(f.data)]

  function Offset(marks: Marks, f: File): nat { if f.name in marks then marks[f.name].offset else 0 }

  function Below(marks: Marks): Cut {
    (f: File) => if Offset(marks, f) <= |f.data| then f.data[..Offset(marks, f)] else []
  }

  function Past(marks: Marks): Cut { (f: File) => PastMark(marks, f) }

  /** The complete lines past the mark. */
  function PastMark(marks: Marks, f: File): Bytes {
    if Offset(marks, f) > |f.data| then []
    else
      var chunk := f.data[Offset(marks, f)..];
      chunk[..LastComplete(chunk)]
  }

  function Collect<T>(pick: Bytes -> Option<T>, cut: Cut, files: seq<File>): seq<T> {
    if files == [] then []
    else Collect(pick, cut, files[..|files| - 1]) + Picked(pick, cut(files[|files| - 1]))
  }

  function TotalSize(files: seq<File>): nat {
    if files == [] then 0 else TotalSize(files[..|files| - 1]) + |files[|files| - 1].data|
  }

  function LatestMtime(files: seq<File>): Time {
    if files == [] then 0
    else
      var before, t := LatestMtime(files[..|files| - 1]), files[|files| - 1].mtime;
      if t > before then t else before
  }

  function Names(files: seq<File>): set<string> { set f | f in files :: f.name }

  // ----------------------------------------------------------------- the delta

  /** `indexMatchesWatermark`. */
  predicate IndexMatches(sessions: map<string, nat>, idx: Index) {
    forall k :: k in sessions ==> k in idx && idx[k].session.turnCount >= sessions[k]
  }

  /** Otherwise the delta returns errNeedFull. */
  predicate Usable(src: Source, idx: Index, files: seq<File>, wm: Option<Watermark>) {
    && wm.Some?
    && wm.value.fingerprint == src.fingerprint
    && IndexMatches(wm.value.sessions, idx)
    && wm.value.files.Keys <= Names(files)
    && AllWithin(wm.value.files, files)
  }

  /** No file shrank below what was consumed. */
  predicate AllWithin(marks: Marks, files: seq<File>) {
    forall i :: 0 <= i < |files| ==> Offset(marks, files[i]) <= |files[i].data|
  }

  function Stamped(e: Entry, files: seq<File>): Entry {
    e.(session := e.session.(size := TotalSize(files), mtime := LatestMtime(files)))
  }

  /** Sessions that gained a turn. */
  function Touched(sessions: Sessions, files: seq<File>): Index {
    map k | k in sessions && sessions[k].added > 0 :: Stamped(sessions[k].entry, files)
  }

  function TurnCounts(batch: Index): map<string, nat> {
    map k | k in batch :: |batch[k].session.turns|
  }

  function NextMarks(marks: Marks, files: seq<File>): Marks {
    if files == [] then map[]
    else
      var f := files[|files| - 1];
      NextMarks(marks, files[..|files| - 1])[f.name := Mark(Offset(marks, f) + |PastMark(marks, f)|, |f.data|)]
  }

  datatype State = State(index: Index, watermark: Option<Watermark>)

  function DeltaSessions(src: Source, idx: Index, files: seq<File>, marks: Marks): Sessions {
    AddAll(idx, map[], Collect(Accepted(src.env), Past(marks), files))
  }

  function DeltaCoverage(src: Source, files: seq<File>, marks: Marks): SourceCoverage {
    CountAll(Nothing, Collect(CountedFor(src.env, src.name), Past(marks), files))
  }

  function Delta(src: Source, idx: Index, files: seq<File>, wm: Watermark): State {
    var batch := Touched(DeltaSessions(src, idx, files, wm.files), files);
    State(idx + batch,
          Some(Watermark(src.fingerprint, NextMarks(wm.files, files),
                         Add(wm.coverage, DeltaCoverage(src, files, wm.files)), wm.sessions + TurnCounts(batch))))
  }

  // ------------------------------------------------------------- the full parse

  function FullItems(src: Source, files: seq<File>): seq<Item> { Collect(Accepted(src.env), Whole, files) }

  function FullCoverage(src: Source, files: seq<File>): SourceCoverage {
    CountAll(Nothing, Collect(CountedFor(src.env, src.name), Whole, files))
  }

  function Parsed(sessions: Sessions, files: seq<File>): Index {
    map k | k in sessions :: Stamped(sessions[k].entry, files)
  }

  /** The parsed sessions replace what was indexed, and those of the known ids that
      the parse did not produce are pruned. */
  function Replaced(idx: Index, known: set<string>, parsed: Index): Index {
    (idx + parsed) - (known - parsed.Keys)
  }

  function FullIndexing(src: Source, idx: Index, known: set<string>, files: seq<File>): Index {
    Replaced(idx, known, Parsed(AddAll(map[], map[], FullItems(src, files)), files))
  }

  /** The ids of the source's indexed sessions. */
  function IdsOf(src: Source, idx: Index): set<string> { set k | k in idx && idx[k].source == src.name }

  /** `sessionsOfSource`. */
  function SessionsOf(src: Source, idx: Index): map<string, nat> {
    map k | k in idx && idx[k].source == src.name :: idx[k].session.turnCount
  }

  function FullMarks(files: seq<File>): Marks {
    if files == [] then map[]
    else
      var f := files[|files| - 1];
      FullMarks(files[..|files| - 1])[f.name := Mark(LastComplete(f.data), |f.data|)]
  }

  function FullPruning(src: Source, idx: Index, known: set<string>, files: seq<File>): State {
    var idx' := FullIndexing(src, idx, known, files);
    State(idx', Some(Watermark(src.fingerprint, FullMarks(files), FullCoverage(src, files), SessionsOf(src, idx'))))
  }

  function Full(src: Source, idx: Index, files: seq<File>): State {
    FullPruning(src, idx, IdsOf(src, idx), files)
  }

  /** One create or update of the source: delta first, full otherwise. */
  function Cycle(src: Source, s: State, files: seq<File>): State {
    if Usable(src, s.index, files, s.watermark) then Delta(src, s.index, files, s.watermark.value)
    else Full(src, s.index, files)
  }

  function Cycles(src: Source, s: State, runs: seq<seq<File>>): State {
    if runs == [] then s else Cycle(src, Cycles(src, s, runs[..|runs| - 1]), runs[|runs| - 1])
  }

  /** `watermarkDrift`. */
  predicate Drifted(wm: Watermark, files: seq<File>) {
    || (exists f :: f in files && (f.name !in wm.files || wm.files[f.name].size != |f.data|))
    || |files| != |wm.files|
  }

  // --------------------------------------------------------------- the methods

  lemma {:induction false} AddAllOfMore(existing: Index, s: Sessions, a: seq<Item>, b: seq<Item>)
    ensures AddAll(existing, s, a + b) == AddAll(existing, AddAll(existing, s, a), b)
    decreases |a|
  {
    if a == [] {
      assert a + b == b;
    } else {
      assert (a + b)[1..] == a[1..] + b;
      AddAllOfMore(existing, AddTo(existing, s, a[0]), a[1..], b);
    }
  }

  lemma {:induction false} CountAllOfMore(c: SourceCoverage, a: seq<Event>, b: seq<Event>)
    ensures CountAll(c, a + b) == CountAll(CountAll(c, a), b)
  {
    if b == [] {
      assert a + b == a;
    } else {
      assert (a + b)[..|a + b| - 1] == a + b[..|b| - 1];
      CountAllOfMore(c, a, b[..|b| - 1]);
    }
  }

  method WatermarkDrift(wm: Watermark, files: seq<File>) returns (drift: bool)
    ensures drift == Drifted(wm, files)
  {
    var seen := 0;
    for i := 0 to |files|
      invariant seen == i
      invariant forall f :: f in files[..i] ==> f.name in wm.files && wm.files[f.name].size == |f.data|
    {
      var f := files[i];
      assert f in files;
      if f.name !in wm.files { return true; }
      seen := seen + 1;
      if |f.data| != wm.files[f.name].size { return true; }
      assert files[..i + 1] == files[..i] + [f];
    }
    assert files[..|files|] == files;
    drift := seen != |wm.files|;
  }

  method IndexMatchesWatermark(sessions: map<string, nat>, idx: Index) returns (ok: bool)
    ensures ok == IndexMatches(sessions, idx)
  {
    var todo := sessions.Keys;
    while todo != {}
      invariant todo <= sessions.Keys
      invariant forall k :: k in sessions && k !in todo ==> k in idx && idx[k].session.turnCount >= sessions[k]
      decreases todo
    {
      var k :| k in todo;
      if k !in idx || idx[k].session.turnCount < sessions[k] { return false; }
      todo := todo - {k};
    }
    ok := true;
  }

  method AllPresent(marks: Marks, files: seq<File>) returns (ok: bool)
    ensures ok == (marks.Keys <= Names(files))
  {
    var present := {};
    for i := 0 to |files|
      invariant present == Names(files[..i])
    {
      assert files[..i + 1] == files[..i] + [files[i]];
      present := present + {files[i].name};
    }
    assert files[..|files|] == files;
    ok := marks.Keys <= present;
  }

  lemma {:induction false} OneMoreFile<T>(pick: Bytes -> Option<T>, cut: Cut, done: seq<File>, f: File)
    ensures Collect(pick, cut, done + [f]) == Collect(pick, cut, done) + Picked(pick, cut(f))
  {
    assert (done + [f])[..|done|] == done;
  }

  lemma {:induction false} OneMoreMark(marks: Marks, done: seq<File>, f: File)
    ensures NextMarks(marks, done + [f])
         == NextMarks(marks, done)[f.name := Mark(Offset(marks, f) + |PastMark(marks, f)|, |f.data|)]
    ensures FullMarks(done + [f]) == FullMarks(done)[f.name := Mark(LastComplete(f.data), |f.data|)]
  {
    assert (done + [f])[..|done|] == done;
  }

  lemma {:induction false} OneMoreWithin(marks: Marks, done: seq<File>, f: File)
    ensures AllWithin(marks, done + [f]) <==> AllWithin(marks, done) && Offset(marks, f) <= |f.data|
  {
    var all := done + [f];
    assert all[|done|] == f;
    if AllWithin(marks, all) {
      forall i | 0 <= i < |done| ensures Offset(marks, done[i]) <= |done[i].data| { assert all[i] == done[i]; }
    }
  }

  /** What the accumulator and the new marks hold once the files in done are read. */
  ghost predicate Progress(acc: Accumulator, src: Source, marks: Marks, done: seq<File>, next: Marks)
    reads acc, acc.coverage
  {
    && acc.Valid() && src.env == acc.env
    && acc.sessions == DeltaSessions(src, acc.existing, done, marks)
    && acc.coverage.Of(src.name) == DeltaCoverage(src, done, marks)
    && next == NextMarks(marks, done) && AllWithin(marks, done)
  }

  lemma {:induction false} OneMoreDelta(src: Source, idx: Index, marks: Marks, done: seq<File>, f: File)
    ensures DeltaSessions(src, idx, done + [f], marks)
         == AddAll(idx, DeltaSessions(src, idx, done, marks), Items(src.env, PastMark(marks, f)))
    ensures DeltaCoverage(src, done + [f], marks)
         == CountAll(DeltaCoverage(src, done, marks), Events(src.env, src.name, PastMark(marks, f)))
  {
    var picks, counts := Accepted(src.env), CountedFor(src.env, src.name);
    OneMoreFile(picks, Past(marks), done, f);
    OneMoreFile(counts, Past(marks), done, f);
    AddAllOfMore(idx, map[], Collect(picks, Past(marks), done), Picked(picks, PastMark(marks, f)));
    CountAllOfMore(Nothing, Collect(counts, Past(marks), done), Picked(counts, PastMark(marks, f)));
  }

  /** One file of the delta: the accumulator takes the complete lines past the
      mark. */
  method ConsumePast(acc: Accumulator, ghost src: Source, marks: Marks, ghost done: seq<File>, f: File, next: Marks)
    returns (ok: bool, next': Marks)
    requires Progress(acc, src, marks, done, next)
    modifies acc, acc.coverage
    ensures ok == (Offset(marks, f) <= |f.data|) && acc.Valid()
    ensures ok ==> Progress(acc, src, marks, done + [f], next')
  {
    var offset := if f.name in marks then marks[f.name].offset else 0;
    if |f.data| < offset { return false, next; }
    var cut := ConsumeChunk(acc, f.data, offset);
    ok, next' := true, next[f.name := Mark(offset + cut, |f.data|)];
    ghost var past := PastIs(marks, f, offset, cut);
    OneMoreDelta(src, acc.existing, marks, done, f);
    MarkMoves(marks, done, f, next, Mark(offset + cut, |f.data|));
    OneMoreWithin(marks, done, f);
    assert acc.sessions == DeltaSessions(src, acc.existing, done + [f], marks);
    assert acc.coverage.Of(src.name) == DeltaCoverage(src, done + [f], marks);
  }

  lemma {:induction false} MarkMoves(marks: Marks, done: seq<File>, f: File, next: Marks, mark: Mark)
    requires next == NextMarks(marks, done) && mark == Mark(Offset(marks, f) + |PastMark(marks, f)|, |f.data|)
    ensures next[f.name := mark] == NextMarks(marks, done + [f])
  {
    OneMoreMark(marks, done, f);
  }

  lemma PastIs(marks: Marks, f: File, offset: nat, cut: nat) returns (past: Bytes)
    requires offset == Offset(marks, f) <= |f.data| && cut == LastComplete(f.data[offset..])
    ensures past == PastMark(marks, f) == f.data[offset..offset + cut] && |past| == cut
  {
    past := PastMark(marks, f);
  }

  method ConsumeChunk(acc: Accumulator, data: Bytes, offset: nat) returns (cut: nat)
    requires acc.Valid() && offset <= |data|
    modifies acc, acc.coverage
    ensures acc.Valid() && cut == LastComplete(data[offset..]) && offset + cut <= |data|
    ensures acc.sessions == AddAll(acc.existing, old(acc.sessions), Items(acc.env, data[offset..offset + cut]))
    ensures forall s :: acc.coverage.Of(s) == CountAll(old(acc.coverage.Of(s)), Events(acc.env, s, data[offset..offset + cut]))
  {
    if |data| == offset { return 0; }
    var chunk := data[offset..];
    var last := LastIndexOfNewline(chunk);
    cut := last + 1;
    assert chunk[..cut] == data[offset..offset + cut];
    if cut > 0 {
      acc.ConsumeFile(chunk[..cut]);
    }
  }

  method ConsumeAllPast(acc: Accumulator, ghost src: Source, marks: Marks, files: seq<File>)
    returns (ok: bool, next: Marks)
    requires acc.Valid() && src.env == acc.env && acc.sessions == map[] && acc.coverage.sources == map[]
    modifies acc, acc.coverage
    ensures ok == AllWithin(marks, files)
    ensures ok ==> Progress(acc, src, marks, files, next)
  {
    next := map[];
    for i := 0 to |files|
      invariant Progress(acc, src, marks, files[..i], next)
    {
      var within;
      within, next := ConsumePast(acc, src, marks, files[..i], files[i], next);
      if !within { return false, next; }
      assert files[..i + 1] == files[..i] + [files[i]];
    }
    assert files[..|files|] == files;
    ok := true;
  }

  method ApplyIngestSourceDelta(src: Source, idx: Index, files: seq<File>, wm: Option<Watermark>)
    returns (r: Option<State>)
    ensures r == if Usable(src, idx, files, wm) then Some(Delta(src, idx, files, wm.value)) else None
  {
    if wm.None? || wm.value.fingerprint != src.fingerprint { return None; }
    var matches := IndexMatchesWatermark(wm.value.sessions, idx);
    if !matches { return None; }
    var marks := wm.value.files;
    var present := AllPresent(marks, files);
    if !present { return None; }

    var coverage := new CoverageTracker();
    var acc := new Accumulator(src.env, idx, coverage);
    var ok, next := ConsumeAllPast(acc, src, marks, files);
    if !ok { return None; }
    var s := Commit(acc, src, idx, files, wm.value, next);
    r := Some(s);
  }

  /** Upserts the sessions that gained a turn and moves the watermark on. */
  method Commit(acc: Accumulator, src: Source, idx: Index, files: seq<File>, wm: Watermark, next: Marks)
    returns (s: State)
    requires acc.Valid() && acc.sessions == DeltaSessions(src, idx, files, wm.files)
    requires acc.coverage.Of(src.name) == DeltaCoverage(src, files, wm.files) && next == NextMarks(wm.files, files)
    ensures s == Delta(src, idx, files, wm)
  {
    var size, mtime := Aggregate(files);
    var batch := Batch(acc, files, size, mtime, true);
    var counts := map k | k in batch :: |batch[k].session.turns|;
    var all := acc.coverage.All();
    var sum := AddCoverage(wm.coverage, if src.name in all then all[src.name] else Nothing);
    s := State(idx + batch, Some(Watermark(src.fingerprint, next, sum, wm.sessions + counts)));
  }

  method Aggregate(files: seq<File>) returns (size: nat, mtime: Time)
    ensures size == TotalSize(files) && mtime == LatestMtime(files)
  {
    size, mtime := 0, 0;
    for i := 0 to |files|
      invariant size == TotalSize(files[..i]) && mtime == LatestMtime(files[..i])
    {
      assert files[..i + 1][..i] == files[..i];
      size := size + |files[i].data|;
      if files[i].mtime > mtime { mtime := files[i].mtime; }
    }
    assert files[..|files|] == files;
  }

  /** The batch to upsert, in first-seen order: all sessions, or only those that
      gained a turn. */
  method Batch(acc: Accumulator, ghost files: seq<File>, size: nat, mtime: Time, grown: bool) returns (batch: Index)
    requires acc.Valid() && size == TotalSize(files) && mtime == LatestMtime(files)
    ensures batch == if grown then Touched(acc.sessions, files) else Parsed(acc.sessions, files)
  {
    batch := map[];
    for i := 0 to |acc.order|
      invariant batch.Keys == set k | k in acc.order[..i] && k in acc.sessions && (grown ==> acc.sessions[k].added > 0)
      invariant forall k :: k in batch ==> k in acc.sessions && batch[k] == Stamped(acc.sessions[k].entry, files)
    {
      var k := acc.order[i];
      assert k in ToSet(acc.order);
      assert acc.order[..i + 1] == acc.order[..i] + [k];
      var s := acc.sessions[k];
      if !grown || s.added > 0 {
        batch := batch[k := s.entry.(session := s.entry.session.(size := size, mtime := mtime))];
      }
    }
    assert acc.order[..|acc.order|] == acc.order;
    assert forall k :: k in acc.sessions <==> k in acc.order by {
      assert forall k :: k in ToSet(acc.order) <==> k in acc.order;
    }
  }

  /** `applyIngestSource` and the watermark recorded after it; None when the
      action lists no files. */
  method ApplyIngestSource(src: Source, idx: Index, known: set<string>, files: seq<File>) returns (r: Option<State>)
    ensures r == if files == [] then None else Some(FullPruning(src, idx, known, files))
  {
    if |files| == 0 { return None; }
    var coverage := new CoverageTracker();
    var acc := new Accumulator(src.env, map[], coverage);
    ConsumeAllWhole(acc, src, files);
    var size, mtime := Aggregate(files);
    var batch := Batch(acc, files, size, mtime, false);
    var idx' := (idx + batch) - (known - batch.Keys);
    var marks := MarksFromFull(files);
    var all := coverage.All();
    var wm := Watermark(src.fingerprint, marks, if src.name in all then all[src.name] else Nothing, SessionsOf(src, idx'));
    r := Some(State(idx', Some(wm)));
  }

  ghost predicate Parsing(acc: Accumulator, src: Source, done: seq<File>)
    reads acc, acc.coverage
  {
    && acc.Valid() && src.env == acc.env && acc.existing == map[]
    && acc.sessions == AddAll(map[], map[], FullItems(src, done))
    && acc.coverage.Of(src.name) == FullCoverage(src, done)
  }

  method ConsumeAllWhole(acc: Accumulator, ghost src: Source, files: seq<File>)
    requires acc.Valid() && src.env == acc.env && acc.existing == map[]
    requires acc.sessions == map[] && acc.coverage.sources == map[]
    modifies acc, acc.coverage
    ensures Parsing(acc, src, files)
  {
    for i := 0 to |files|
      invariant Parsing(acc, src, files[..i])
    {
      OneMoreWhole(src, files[..i], files[i]);
      acc.ConsumeFile(files[i].data);
      assert files[..i + 1] == files[..i] + [files[i]];
    }
    assert files[..|files|] == files;
  }

  lemma {:induction false} OneMoreWhole(src: Source, done: seq<File>, f: File)
    ensures AddAll(map[], map[], FullItems(src, done + [f]))
         == AddAll(map[], AddAll(map[], map[], FullItems(src, done)), Items(src.env, f.data))
    ensures FullCoverage(src, done + [f]) == CountAll(FullCoverage(src, done), Events(src.env, src.name, f.data))
  {
    var picks, counts := Accepted(src.env), CountedFor(src.env, src.name);
    OneMoreFile(picks, Whole, done, f);
    OneMoreFile(counts, Whole, done, f);
    AddAllOfMore(map[], map[], FullItems(src, done), Items(src.env, f.data));
    CountAllOfMore(Nothing, Collect(counts, Whole, done), Picked(counts, f.data));
  }

  method MarksFromFull(files: seq<File>) returns (marks: Marks)
    ensures marks == FullMarks(files)
  {
    marks := map[];
    for i := 0 to |files|
      invariant marks == FullMarks(files[..i])
    {
      var f := files[i];
      var off := LastCompleteOffset(f.data, |f.data|, 65536);
      assert f.data[..|f.data|] == f.data;
      assert files[..i + 1][..i] == files[..i];
      marks := marks[f.name := Mark(off, |f.data|)];
    }
    assert files[..|files|] == files;
  }
}
