/** Concrete inputs on which the code does not do what its documentation promises;
    the exact conditions are proved where each property is. */
module Witnesses {
  import opened Prelude
  import opened Lines
  import opened Coverage
  import opened Ingest
  import opened IngestDelta
  import opened Reconcile
  import IngestFiles
  import P = SessionParser
  import SI = SessionIndexing
  import ReconcileProofs
  import IngestTheorems
  import LostTurns
  import S = IngestSessions
  import Search

  /** A source named "obs" whose every line decodes to the given record. */
  function Observer(rec: Record): Source {
    Source("obs", Env((token: Bytes) => Some(rec), (text: string) => 1, (a: string, b: string, c: string) => "0123456789abcdef", None, 100), "fp")
  }

  function Saying(schema: string, role: string): Record {
    Record(schema, "obs", "1", "", None, role, "t", "hello", "", "")
  }

  const OneLine: Bytes := [123, 10]
  const HalfLine: Bytes := [123]

  lemma {:induction false} OneToken()
    ensures Advance(OneLine) == 2 && Token(OneLine) == HalfLine && OneLine[2..] == []
    ensures Advance(HalfLine) == 1 && Token(HalfLine) == HalfLine && HalfLine[1..] == []
    ensures LastComplete(OneLine) == 2 && LastComplete(HalfLine) == 0
  {
    assert OneLine[1..] == [10] && Advance([10 as Byte]) == 1;
    assert Advance(HalfLine[1..]) == 0;
    assert OneLine[..1] == HalfLine && HalfLine[..1] == HalfLine;
    assert HalfLine[..0] == [] && LastComplete([]) == 0;
  }

  lemma {:induction false} OnePicked<T>(pick: Bytes -> Option<T>)
    ensures Picked(pick, OneLine) == First(pick(HalfLine)) && Picked(pick, HalfLine) == First(pick(HalfLine))
  {
    OneToken();
    assert Picked(pick, OneLine[2..]) == [] && Picked(pick, HalfLine[1..]) == [];
  }

  lemma {:induction false} OneFile<T>(pick: Bytes -> Option<T>, cut: Cut, f: File)
    ensures Collect(pick, cut, [f]) == Picked(pick, cut(f))
  {
    assert [f][..0] == [];
    assert Collect(pick, cut, [f][..0]) == [];
  }

  // ----------------------------------------------------- one name, two files

  /** Two ingest directories may hold files of one basename under one source: after
      the apply that indexed their record, the next plan updates the source again. */
  lemma {:induction false} RepeatedBasenameNeverSettles() returns (o: Observed)
    ensures |o.files| == 2 && o.files[0] == o.files[1] == File("a.jsonl", OneLine, 1) && FullItems(o.src, o.files) != []
    ensures var ar := ApplySource(map[], Archive(map[], map[]), o);
            && ForSource(ar, o) == UpdateSource(o)
            && o.src.name in ar.watermarks && Drifted(ar.watermarks[o.src.name], o.files)
  {
    o := TwoDirectories();
    StillDrifting(o);
  }

  lemma {:induction false} TwoDirectories() returns (o: Observed)
    ensures |o.files| == 2 && o.files[0] == o.files[1] == File("a.jsonl", OneLine, 1)
    ensures FullItems(o.src, o.files) != [] && ReconcileProofs.OwnItems(FullItems(o.src, o.files), o.src.name)
    ensures ReconcileProofs.Plain(o.src.name) && o.src.name != ""
  {
    var src, f := Observer(Saying(SCHEMA, "user")), File("a.jsonl", OneLine, 1);
    o := Observed(src, [f, f]);
    SpeakingItems(src, f);
    NamesItself(o);
  }

  lemma {:induction false} StillDrifting(o: Observed)
    requires |o.files| == 2 && o.files[0].name == o.files[1].name && o.src.name != "" && ReconcileProofs.Plain(o.src.name)
    requires FullItems(o.src, o.files) != [] && ReconcileProofs.OwnItems(FullItems(o.src, o.files), o.src.name)
    ensures var ar := ApplySource(map[], Archive(map[], map[]), o);
            && ForSource(ar, o) == UpdateSource(o)
            && o.src.name in ar.watermarks && Drifted(ar.watermarks[o.src.name], o.files)
  {
    ReconcileProofs.FullLeaves(o, map[]);
    RepeatedDrifts(o);
    FirstApply(o);
  }

  lemma {:induction false} RepeatedDrifts(o: Observed)
    requires |o.files| == 2 && o.files[0].name == o.files[1].name
    ensures Drifted(Full(o.src, map[], o.files).watermark.value, o.files)
  {
    ReconcileProofs.MarksAreSizes(map[], o.files);
    assert !ReconcileProofs.DistinctNames(o.files);
    ReconcileProofs.SettlesIffDistinctNames(Full(o.src, map[], o.files).watermark.value, o.files);
  }

  /** The first apply of a source over an empty archive is a full parse. */
  lemma {:induction false} FirstApply(o: Observed)
    requires o.files != []
    ensures var ar, s := ApplySource(map[], Archive(map[], map[]), o), Full(o.src, map[], o.files);
            ar.index == s.index && WatermarkOf(ar, o.src.name) == s.watermark && o.src.name in ar.watermarks
            && ar.watermarks[o.src.name] == s.watermark.value
  {
    assert IdsOf(o.src, map[]) == {};
  }

  lemma {:induction false} SpeakingItems(src: Source, f: File)
    requires src == Observer(Saying(SCHEMA, "user")) && f.data == OneLine
    ensures FullItems(src, [f, f]) != []
  {
    OnePicked(Accepted(src.env));
    assert [f, f][..1] == [f];
    OneFile(Accepted(src.env), Whole, f);
    assert Judge(src.env, Saying(SCHEMA, "user")).Accept?;
  }

  lemma {:induction false} NamesItself(o: Observed)
    requires exists schema, role :: o.src == Observer(Saying(schema, role))
    ensures ReconcileProofs.OwnItems(FullItems(o.src, o.files), "obs") && ReconcileProofs.Plain("obs") && o.src.name == "obs"
  {
    IngestFiles.CollectAll(Accepted(o.src.env), (item: Item) => item.source == "obs", Whole, o.files);
  }

  // ------------------------------------------------- nothing but a rejection

  /** A source whose one record has an unknown schema is planned as a create, and
      after the apply as a create again. */
  lemma {:induction false} RejectedSourceIsCreatedForever() returns (o: Observed)
    ensures o.files == [File("a.jsonl", OneLine, 1)]
    ensures var ar := Archive(map[], map[]);
            ForSource(ar, o) == CreateSource(o) && ForSource(ApplySource(map[], ar, o), o) == CreateSource(o)
  {
    var src := Observer(Saying("other", "user"));
    o := Observed(src, [File("a.jsonl", OneLine, 1)]);
    OnePicked(Accepted(src.env));
    OneFile(Accepted(src.env), Whole, o.files[0]);
    assert Judge(src.env, Saying("other", "user")) == UnknownSchema;
    assert FullItems(src, o.files) == [];
    NamesItself(o);
    ReconcileProofs.FullLeaves(o, map[]);
    FirstApply(o);
  }

  // -------------------------------------------------------- a torn last line

  /** One draft without its newline, then completed: the full parse counts one
      quarantined record, the watermark two. */
  lemma {:induction false} TornRecordIsCountedTwice() returns (src: Source)
    ensures var torn, whole := File("a.jsonl", HalfLine, 1), File("a.jsonl", OneLine, 2);
            var s := Cycle(src, Full(src, map[], [torn]), [whole]);
            && s.watermark.Some? && s.watermark.value.coverage.quarantined == 2
            && FullCoverage(src, [whole]).quarantined == 1
  {
    src := Observer(Saying(SCHEMA, "user-draft"));
    var torn, whole := File("a.jsonl", HalfLine, 1), File("a.jsonl", OneLine, 2);
    var pick, e := CountedFor(src.env, "obs"), Quarantined(TURN, None);
    assert pick(HalfLine) == Some(e);
    OnePicked(pick);
    OneFile(pick, Whole, torn);
    OneFile(pick, Whole, whole);
    OneFile(pick, Past(FullMarks([torn])), whole);
    OneEvent(e);
    PastAll(torn, whole);
    TornIsUsable(src, torn, whole);
  }

  lemma {:induction false} OneEvent(e: Event)
    requires e == Quarantined(TURN, None)
    ensures CountAll(Nothing, [e]).quarantined == 1
  {
    assert [e][..0] == [];
    assert CountAll(Nothing, [e]) == Count(CountAll(Nothing, [e][..0]), e);
  }

  lemma {:induction false} PastAll(torn: File, whole: File)
    requires torn.name == whole.name && torn.data == HalfLine && whole.data == OneLine
    ensures FullMarks([torn]) == map[torn.name := Mark(0, 1)] && PastMark(FullMarks([torn]), whole) == OneLine
  {
    OneToken();
    assert [torn][..0] == [];
    assert FullMarks([torn][..0]) == map[];
    assert OneLine[0..] == OneLine && OneLine[..2] == OneLine;
  }

  lemma {:induction false} TornIsUsable(src: Source, torn: File, whole: File)
    requires torn.name == whole.name && torn.data == HalfLine && whole.data == OneLine
    ensures var s := Full(src, map[], [torn]); Usable(src, s.index, [whole], s.watermark)
  {
    PastAll(torn, whole);
    assert whole in [whole] && whole.name in Names([whole]);
  }

  // -------------------------------------------------------- a lost turns file

  /** A source whose lines alternate between two records of one session. */
  function Talker(): Source {
    Source("obs", Env((token: Bytes) => Some(Saying(SCHEMA, "user").(stableId := if token == HalfLine then "a" else "b")),
                      (text: string) => 1, (a: string, b: string, c: string) => "0123456789abcdef", None, 100), "fp")
  }

  const TwoLines: Bytes := [123, 10, 125, 10]

  /** One turn was indexed and its turns file lost; the delta that brings a second
      record leaves the session with that one turn, where a full parse finds two. */
  lemma {:induction false} LostTurnIsNotReread() returns (src: Source, prev: seq<File>, next: seq<File>, k: string)
    ensures |prev| == |next| == 1 && prev[0].data == OneLine && next[0].data == TwoLines
    ensures var s := Full(src, map[], prev);
            && k in s.index && Usable(src, LostTurns.Lost(s.index, k), next, s.watermark)
            && var after := Delta(src, LostTurns.Lost(s.index, k), next, s.watermark.value).index;
               var full := Full(src, LostTurns.Lost(s.index, k), next).index;
               && k in after && |after[k].session.turns| == 1
               && k in full && |full[k].session.turns| == 2
  {
    var a, b;
    src, prev, next, a, b := TwoRecords();
    k := a.key;
    OneThenTwo(src, prev, next, a, b);
  }

  lemma {:induction false} TwoRecords() returns (src: Source, prev: seq<File>, next: seq<File>, a: Item, b: Item)
    ensures |prev| == |next| == 1 && prev[0].name == next[0].name && prev[0].data == OneLine && next[0].data == TwoLines
    ensures FullItems(src, prev) == [a] && FullItems(src, next) == [a, b]
    ensures Collect(Accepted(src.env), Past(FullMarks(prev)), next) == [b]
    ensures a.key == b.key && a.dedup != b.dedup
  {
    src, a, b := TalkerSays();
    prev, next := [File("a.jsonl", OneLine, 1)], [File("a.jsonl", TwoLines, 2)];
    ItemsOfBoth(src, prev[0], next[0], a, b);
  }

  lemma {:induction false} TalkerSays() returns (src: Source, a: Item, b: Item)
    ensures Accepted(src.env)(HalfLine) == Some(a) && Accepted(src.env)([125]) == Some(b)
    ensures a.key == b.key && a.dedup != b.dedup
  {
    src := Talker();
    var rec := Saying(SCHEMA, "user");
    assert Judge(src.env, rec.(stableId := "a")).Accept? && Judge(src.env, rec.(stableId := "b")).Accept?;
    a, b := Judge(src.env, rec.(stableId := "a")).item, Judge(src.env, rec.(stableId := "b")).item;
    assert a.dedup == Stable("a") && b.dedup == Stable("b");
    assert src.env.decode(HalfLine) == Some(rec.(stableId := "a")) && src.env.decode([125]) == Some(rec.(stableId := "b"));
  }

  lemma {:induction false} ItemsOfBoth(src: Source, f: File, g: File, a: Item, b: Item)
    requires f.name == g.name && f.data == OneLine && g.data == TwoLines
    requires Accepted(src.env)(HalfLine) == Some(a) && Accepted(src.env)([125]) == Some(b)
    ensures FullItems(src, [f]) == [a] && FullItems(src, [g]) == [a, b]
    ensures Collect(Accepted(src.env), Past(FullMarks([f])), [g]) == [b]
  {
    var pick := Accepted(src.env);
    OnePicked(pick);
    OneFile(pick, Whole, f);
    OneFile(pick, Whole, g);
    OneFile(pick, Past(FullMarks([f])), g);
    SecondLine(pick);
    SecondMark(f, g);
  }

  lemma {:induction false} SecondLine<T>(pick: Bytes -> Option<T>)
    ensures Picked(pick, [125, 10]) == First(pick([125]))
    ensures Picked(pick, TwoLines) == First(pick(HalfLine)) + First(pick([125]))
  {
    var line: Bytes := [125, 10];
    assert line[1..] == [10] && Advance([10 as Byte]) == 1 && Advance(line) == 2;
    assert line[..1] == [125] && Token(line) == [125] && line[2..] == [];
    assert Picked(pick, line[2..]) == [];
    assert TwoLines == OneLine + line;
    OnePicked(pick);
    IngestFiles.PickedOfMore(pick, OneLine, line);
  }

  lemma {:induction false} SecondMark(f: File, g: File)
    requires f.name == g.name && f.data == OneLine && g.data == TwoLines
    ensures FullMarks([f]) == map[f.name := Mark(2, 2)] && PastMark(FullMarks([f]), g) == [125, 10]
  {
    OneToken();
    assert [f][..0] == [];
    assert FullMarks([f][..0]) == map[];
    var chunk: Bytes := [125, 10];
    assert TwoLines[2..] == chunk && chunk[..2] == chunk && LastComplete(chunk) == 2;
  }

  lemma {:induction false} OneThenTwo(src: Source, prev: seq<File>, next: seq<File>, a: Item, b: Item)
    requires |prev| == |next| == 1 && prev[0].name == next[0].name && prev[0].data == OneLine && next[0].data == TwoLines
    requires FullItems(src, prev) == [a] && FullItems(src, next) == [a, b] && a.key == b.key && a.dedup != b.dedup
    requires Collect(Accepted(src.env), Past(FullMarks(prev)), next) == [b]
    ensures var s, k := Full(src, map[], prev), a.key;
            && k in s.index && Usable(src, LostTurns.Lost(s.index, k), next, s.watermark)
            && var after := Delta(src, LostTurns.Lost(s.index, k), next, s.watermark.value).index;
               var full := Full(src, LostTurns.Lost(s.index, k), next).index;
               && k in after && |after[k].session.turns| == 1
               && k in full && |full[k].session.turns| == 2
  {
    var s, k := Full(src, map[], prev), a.key;
    OneKeyEach(a, b);
    IngestTheorems.FullAt(src, map[], prev, k);
    var lost := LostTurns.Lost(s.index, k);
    StillUsable(src, s, prev, next);
    LostTurns.LossIsUnnoticed(src, s.index, next, s.watermark, k);
    LostTurns.LostCounts(s.index, k, [b]);
    IngestTheorems.DeltaAt(src, lost, next, s.watermark.value, k);
    LostTurns.ReferenceCounts([a, b], k);
    IngestTheorems.FullAt(src, lost, next, k);
  }

  lemma {:induction false} OneKeyEach(a: Item, b: Item)
    requires a.key == b.key && a.dedup != b.dedup
    ensures S.FirstOf([a], a.key).Some? && S.FirstOf([b], a.key).Some? && S.FirstOf([a, b], a.key).Some?
    ensures |S.DedupsIn([b], a.key)| == 1 && |S.DedupsIn([a, b], a.key)| == 2
  {
    assert [b][1..] == [] && [a, b][1..] == [b];
    assert S.DedupsIn([b], a.key) == {b.dedup} + S.DedupsIn([], a.key);
    assert S.DedupsIn([a, b], a.key) == {a.dedup} + S.DedupsIn([b], a.key);
    assert S.DedupsIn([b], a.key) == {b.dedup} && S.DedupsIn([a, b], a.key) == {a.dedup, b.dedup};
  }

  lemma {:induction false} StillUsable(src: Source, s: State, prev: seq<File>, next: seq<File>)
    requires |prev| == |next| == 1 && prev[0].name == next[0].name && prev[0].data == OneLine && next[0].data == TwoLines
    requires s == Full(src, map[], prev)
    ensures Usable(src, s.index, next, s.watermark)
  {
    var f, g := prev[0], next[0];
    assert prev == [f] && next == [g];
    SecondMark(f, g);
    assert g in next && g.name in Names(next);
  }

  // ------------------------------------------- a turn without a timestamp

  function Said(uuid: string, t: Time): Turn { Turn(uuid, "s", 0, User, t, "hello", false, "", "", "", "") }

  /** Two turns of one session match; the one without a timestamp is in the window
      of a search with only an upper bound, and the pre-filter loses it. */
  lemma {:induction false} UntimedTurnIsLost() returns (idx: Index, q: Search.Query)
    ensures Search.Enclosed(idx) && idx.Keys == {"s"} && idx["s"].session.turns == [Said("a", 0), Said("b", 10)]
    ensures q.since == 0 && q.until == 5 && q.limit == 0
    ensures Search.AllHits(idx, q, ["s"], true) == []
    ensures |Search.AllHits(idx, q, ["s"], false)| == 1 && Search.AllHits(idx, q, ["s"], false)[0].uuid == "a"
  {
    var turns := [Said("a", 0), Said("b", 10)];
    var e := Entry("", "", SI.Indexed(P.Head("", "", P.Bounds(10, 10)), turns, 2, 0, 0, 0, None));
    idx := map["s" := e];
    q := Search.Query(0, 5, "", "", 0, (text: string) => true, (text: string) => text, (a: string, b: string) => a == b);
    assert ["s"][..0] == [];
    assert turns[..1] == [Said("a", 0)] && turns[..1][..0] == [];
    assert Search.TurnHits(q, "s", e, turns[..1][..0]) == [];
    assert Search.Passes(q, Said("a", 0)) && !Search.Passes(q, Said("b", 10));
    assert Search.TurnHits(q, "s", e, turns[..1]) == [Search.HitOf(q, "s", e, Said("a", 0))];
    assert Search.TurnHits(q, "s", e, turns) == Search.TurnHits(q, "s", e, turns[..1]);
    assert Search.AllHits(idx, q, ["s"][..0], true) == [] && Search.AllHits(idx, q, ["s"][..0], false) == [];
    assert Search.SessionHits(idx, q, "s", true) == [];
  }
}
