/** Applying a plan converges: exactly when, the next plan has nothing to do. */
module ReconcileProofs {
  import opened Prelude
  import opened Lines
  import opened Ingest
  import opened IngestDelta
  import opened Reconcile
  import IngestFiles
  import S = IngestSessions

  // ------------------------------------------------- which source owns a key

  /** The part of an index key before its first slash. */
  function Owner(k: string): Option<string> {
    if k == "" then None
    else if k[0] == '/' then Some("")
    else match Owner(k[1..])
      case None => None
      case Some(p) => Some([k[0]] + p)
  }

  predicate Plain(name: string) { forall i :: 0 <= i < |name| ==> name[i] != '/' }

  lemma {:induction false} OwnerOfKey(name: string, id: string)
    requires Plain(name)
    ensures Owner(IndexKey(name, id)) == Some(name)
  {
    var k := IndexKey(name, id);
    if name == "" {
      assert k[0] == '/';
    } else {
      OwnerOfKey(name[1..], id);
      assert k[0] == name[0] && k[1..] == IndexKey(name[1..], id);
      assert [name[0]] + name[1..] == name;
    }
  }

  lemma {:induction false} PlainHasNoOwner(k: string)
    requires Plain(k)
    ensures Owner(k) == None
  {
    if k != "" { PlainHasNoOwner(k[1..]); }
  }

  /** Every entry is filed under a key of its own source. */
  predicate Tidy(idx: Index) { forall k :: k in idx ==> TidyAt(k, idx[k]) }

  predicate TidyAt(k: string, e: Entry) { Owner(k) == if e.source == "" then None else Some(e.source) }

  /** Watermarks record only sessions of their own source. */
  predicate Owned(wms: map<string, Watermark>) {
    forall n :: n in wms ==> OwnedBy(wms[n], n)
  }

  predicate OwnedBy(wm: Watermark, name: string) { forall k :: k in wm.sessions ==> Owner(k) == Some(name) }

  predicate OwnItems(items: seq<Item>, name: string) { forall i :: 0 <= i < |items| ==> items[i].source == name }

  predicate OwnKeys(items: seq<Item>, name: string) { forall i :: 0 <= i < |items| ==> Owner(items[i].key) == Some(name) }

  lemma {:induction false} OwnItemsHaveOwnKeys(src: Source, cut: Cut, files: seq<File>)
    requires Plain(src.name) && OwnItems(Collect(Accepted(src.env), cut, files), src.name)
    ensures OwnKeys(Collect(Accepted(src.env), cut, files), src.name)
  {
    var p := (item: Item) => item.source == src.name ==> Owner(item.key) == Some(src.name);
    forall token: Bytes | Accepted(src.env)(token).Some? ensures p(Accepted(src.env)(token).value) {
      var rec := src.env.decode(token).value;
      if rec.source == src.name { OwnerOfKey(rec.source, rec.sessionId); }
    }
    IngestFiles.CollectAll(Accepted(src.env), p, cut, files);
  }

  // ------------------------------------------------------- one source applied

  lemma {:induction false} GrownSource(s: Accum, k: string, items: seq<Item>)
    ensures S.Grown(s, k, items).entry.source == s.entry.source
    decreases |items|
  {
    if items != [] { GrownSource(if items[0].key == k then AddItem(s, items[0]) else s, k, items[1..]); }
  }

  lemma {:induction false} FirstIsAmong(items: seq<Item>, k: string) returns (i: nat)
    requires S.FirstOf(items, k).Some?
    ensures i < |items| && items[i].key == k && items[i] == S.FirstOf(items, k).value
  {
    if items[0].key == k {
      i := 0;
    } else {
      i := FirstIsAmong(items[1..], k);
      i := i + 1;
    }
  }

  lemma {:induction false} SomeIsFirst(items: seq<Item>, i: nat)
    requires i < |items|
    ensures S.FirstOf(items, items[i].key).Some?
  {
    if i > 0 { SomeIsFirst(items[1..], i - 1); }
  }

  /** A session built from own records belongs to the source, and its count is
      right if it gained a turn. */
  lemma {:induction false} OwnSession(idx: Index, name: string, items: seq<Item>, k: string)
    requires Tidy(idx) && name != "" && OwnItems(items, name) && OwnKeys(items, name)
    ensures var sessions := AddAll(idx, map[], items);
            && (k in sessions <==> S.FirstOf(items, k).Some?)
            && (k in sessions ==>
                  && Owner(k) == Some(name) && sessions[k].entry.source == name
                  && (k in idx || sessions[k].added > 0)
                  && (sessions[k].added > 0 ==> sessions[k].entry.session.turnCount == |sessions[k].entry.session.turns|))
  {
    S.SessionOf(idx, map[], items, k);
    if S.FirstOf(items, k).Some? {
      var i := FirstIsAmong(items, k);
      var seed := Seed(idx, k, items[i].source);
      GrownSource(seed, k, items);
      S.CountedWhenGrown(seed, k, items);
      assert seed.entry.source == name by { assert k in idx ==> TidyAt(k, idx[k]); }
      if k !in idx { S.NewSessionIsTouched(idx, k, items[i].source, items); }
    }
  }

  /** idx' differs from idx only under keys of the source. */
  ghost predicate Elsewhere(idx: Index, idx': Index, name: string) {
    forall k :: Owner(k) != Some(name) ==> (k in idx <==> k in idx') && (k in idx ==> idx'[k] == idx[k])
  }

  /** What applying a source leaves behind. */
  ghost predicate Leaves(o: Observed, idx: Index, s: State, some: bool) {
    && Elsewhere(idx, s.index, o.src.name) && Tidy(s.index)
    && s.watermark.Some? && OwnedBy(s.watermark.value, o.src.name)
    && IndexMatches(s.watermark.value.sessions, Listed(s.index, o.src.name))
    && (Listed(s.index, o.src.name) != map[] <==> some)
  }

  lemma {:induction false} DeltaTidy(o: Observed, idx: Index, wm: Watermark)
    requires Tidy(idx) && Plain(o.src.name) && o.src.name != "" && OwnedBy(wm, o.src.name)
    requires OwnItems(Collect(Accepted(o.src.env), Past(wm.files), o.files), o.src.name)
    ensures var s := Delta(o.src, idx, o.files, wm);
            Elsewhere(idx, s.index, o.src.name) && Tidy(s.index) && OwnedBy(s.watermark.value, o.src.name)
  {
    var items := Collect(Accepted(o.src.env), Past(wm.files), o.files);
    OwnItemsHaveOwnKeys(o.src, Past(wm.files), o.files);
    forall k ensures var sessions := AddAll(idx, map[], items);
                     k in sessions ==> Owner(k) == Some(o.src.name) && sessions[k].entry.source == o.src.name
    {
      OwnSession(idx, o.src.name, items, k);
    }
  }

  lemma {:induction false} DeltaMatches(o: Observed, idx: Index, wm: Watermark)
    requires Tidy(idx) && Plain(o.src.name) && o.src.name != "" && OwnedBy(wm, o.src.name)
    requires OwnItems(Collect(Accepted(o.src.env), Past(wm.files), o.files), o.src.name)
    requires IndexMatches(wm.sessions, idx)
    ensures var s := Delta(o.src, idx, o.files, wm);
            IndexMatches(s.watermark.value.sessions, Listed(s.index, o.src.name))
  {
    var items := Collect(Accepted(o.src.env), Past(wm.files), o.files);
    var s := Delta(o.src, idx, o.files, wm);
    OwnItemsHaveOwnKeys(o.src, Past(wm.files), o.files);
    forall k | k in s.watermark.value.sessions
      ensures k in s.index && s.index[k].source == o.src.name
           && s.index[k].session.turnCount >= s.watermark.value.sessions[k]
    {
      OwnSession(idx, o.src.name, items, k);
      if k !in Touched(AddAll(idx, map[], items), o.files) {
        assert k in wm.sessions && k in idx && TidyAt(k, idx[k]);
      }
    }
  }

  lemma {:induction false} DeltaYields(o: Observed, idx: Index, wm: Watermark)
    requires Tidy(idx) && Plain(o.src.name) && o.src.name != ""
    requires OwnItems(Collect(Accepted(o.src.env), Past(wm.files), o.files), o.src.name)
    ensures Listed(Delta(o.src, idx, o.files, wm).index, o.src.name) != map[] <==>
            Listed(idx, o.src.name) != map[] || Collect(Accepted(o.src.env), Past(wm.files), o.files) != []
  {
    var items := Collect(Accepted(o.src.env), Past(wm.files), o.files);
    if items != [] {
      SomeIsFirst(items, 0);
      StaysListed(o, idx, wm, items[0].key);
    } else if k :| k in Listed(idx, o.src.name) {
      StaysListed(o, idx, wm, k);
    } else {
      NothingListed(o, idx, wm);
    }
  }

  lemma {:induction false} NothingListed(o: Observed, idx: Index, wm: Watermark)
    requires Collect(Accepted(o.src.env), Past(wm.files), o.files) == []
    ensures Delta(o.src, idx, o.files, wm).index == idx
  {
    var sessions := DeltaSessions(o.src, idx, o.files, wm.files);
    assert sessions == map[];
    assert Touched(sessions, o.files) == map[];
    assert idx + map[] == idx;
  }

  lemma {:induction false} StaysListed(o: Observed, idx: Index, wm: Watermark, k: string)
    requires Tidy(idx) && Plain(o.src.name) && o.src.name != ""
    requires OwnItems(Collect(Accepted(o.src.env), Past(wm.files), o.files), o.src.name)
    requires k in Listed(idx, o.src.name) || S.FirstOf(Collect(Accepted(o.src.env), Past(wm.files), o.files), k).Some?
    ensures k in Listed(Delta(o.src, idx, o.files, wm).index, o.src.name)
  {
    OwnItemsHaveOwnKeys(o.src, Past(wm.files), o.files);
    OwnSession(idx, o.src.name, Collect(Accepted(o.src.env), Past(wm.files), o.files), k);
    assert k in idx ==> TidyAt(k, idx[k]);
  }

  lemma {:induction false} DeltaLeaves(o: Observed, idx: Index, wm: Watermark)
    requires Tidy(idx) && Plain(o.src.name) && o.src.name != "" && OwnedBy(wm, o.src.name)
    requires OwnItems(Collect(Accepted(o.src.env), Past(wm.files), o.files), o.src.name)
    requires IndexMatches(wm.sessions, idx)
    ensures Leaves(o, idx, Delta(o.src, idx, o.files, wm),
                   Listed(idx, o.src.name) != map[] || Collect(Accepted(o.src.env), Past(wm.files), o.files) != [])
  {
    DeltaTidy(o, idx, wm);
    DeltaMatches(o, idx, wm);
    DeltaYields(o, idx, wm);
  }

  lemma {:induction false} FullLeaves(o: Observed, idx: Index)
    requires Tidy(idx) && Plain(o.src.name) && o.src.name != "" && OwnItems(FullItems(o.src, o.files), o.src.name)
    ensures Leaves(o, idx, Full(o.src, idx, o.files), FullItems(o.src, o.files) != [])
  {
    var items, name := FullItems(o.src, o.files), o.src.name;
    var sessions, s := AddAll(map[], map[], items), Full(o.src, idx, o.files);
    OwnItemsHaveOwnKeys(o.src, Whole, o.files);
    forall k ensures k in sessions <==> S.FirstOf(items, k).Some?
             ensures k in sessions ==> Owner(k) == Some(name) && sessions[k].entry.source == name
    {
      OwnSession(map[], name, items, k);
    }
    FullParts(o, idx, sessions);
    if items != [] {
      SomeIsFirst(items, 0);
      assert items[0].key in sessions;
    } else if k :| k in sessions {
      var i := FirstIsAmong(items, k);
    }
  }

  lemma {:induction false} FullParts(o: Observed, idx: Index, sessions: Sessions)
    requires Tidy(idx) && sessions == AddAll(map[], map[], FullItems(o.src, o.files)) && o.src.name != ""
    requires forall k :: k in sessions ==> Owner(k) == Some(o.src.name) && sessions[k].entry.source == o.src.name
    ensures Leaves(o, idx, Full(o.src, idx, o.files), sessions != map[])
  {
    var s, parsed := Full(o.src, idx, o.files), Parsed(sessions, o.files);
    forall k ensures k in s.index <==> k in parsed || (k in idx && idx[k].source != o.src.name)
             ensures k in s.index ==> s.index[k] == if k in parsed then parsed[k] else idx[k]
    {
    }
    assert Tidy(s.index) by {
      forall k | k in s.index ensures TidyAt(k, s.index[k]) { assert k in idx ==> TidyAt(k, idx[k]); }
    }
    FullElsewhere(o, idx, parsed, s.index);
    if k :| k in sessions { assert k in Listed(s.index, o.src.name); }
  }

  lemma FullElsewhere(o: Observed, idx: Index, parsed: Index, idx': Index)
    requires Tidy(idx) && o.src.name != "" && forall k :: k in parsed ==> Owner(k) == Some(o.src.name)
    requires forall k :: k in idx' <==> k in parsed || (k in idx && idx[k].source != o.src.name)
    requires forall k :: k in idx' ==> idx'[k] == if k in parsed then parsed[k] else idx[k]
    ensures Elsewhere(idx, idx', o.src.name)
  {
    forall k | Owner(k) != Some(o.src.name)
      ensures (k in idx <==> k in idx') && (k in idx ==> idx'[k] == idx[k])
    {
      assert k in idx ==> TidyAt(k, idx[k]);
    }
  }

  // -------------------------------------------------------- marks and drift

  predicate DistinctNames(files: seq<File>) {
    forall i, j :: 0 <= i < j < |files| ==> files[i].name != files[j].name
  }

  /** marks holds the size of every file, under its name. */
  predicate Sizes(marks: Marks, files: seq<File>) {
    marks.Keys == Names(files) &&
    (DistinctNames(files) ==> forall i :: 0 <= i < |files| ==> marks[files[i].name].size == |files[i].data|)
  }

  lemma {:induction false} SizesGrow(marks: Marks, files: seq<File>, front: seq<File>, f: File, mark: Mark)
    requires files == front + [f] && Sizes(marks, front) && mark.size == |f.data|
    ensures Sizes(marks[f.name := mark], files)
  {
    var marks' := marks[f.name := mark];
    assert files[|front|] == f;
    if DistinctNames(files) {
      assert DistinctNames(front) by {
        forall i, j | 0 <= i < j < |front| ensures front[i].name != front[j].name {
          assert files[i] == front[i] && files[j] == front[j];
        }
      }
      forall i | 0 <= i < |files| ensures marks'[files[i].name].size == |files[i].data| {
        if i < |front| { assert files[i] == front[i] && files[i].name != files[|front|].name; }
      }
    }
    forall n ensures n in Names(files) <==> n in Names(front) || n == f.name {
      if n in Names(front) {
        var g :| g in front && g.name == n;
        assert g in files;
      }
      if n == f.name { assert f in files; }
    }
  }

  lemma {:induction false} MarksAreSizes(marks: Marks, files: seq<File>)
    ensures Sizes(NextMarks(marks, files), files) && Sizes(FullMarks(files), files)
  {
    if files != [] {
      var front, f := IngestFiles.SplitLast(files);
      MarksAreSizes(marks, front);
      SizesGrow(NextMarks(marks, front), files, front, f, Mark(Offset(marks, f) + |PastMark(marks, f)|, |f.data|));
      SizesGrow(FullMarks(front), files, front, f, Mark(LastComplete(f.data), |f.data|));
    }
  }

  lemma {:induction false} NamesCount(files: seq<File>)
    ensures |Names(files)| <= |files|
    ensures |Names(files)| == |files| <==> DistinctNames(files)
  {
    if files == [] {
      assert Names(files) == {};
    } else {
      var front, f := IngestFiles.SplitLast(files);
      NamesCount(front);
      OneMoreName(files, front, f);
    }
  }

  lemma {:induction false} OneMoreName(files: seq<File>, front: seq<File>, f: File)
    requires files == front + [f]
    ensures Names(files) == Names(front) + {f.name}
    ensures DistinctNames(files) <==> DistinctNames(front) && f.name !in Names(front)
  {
    assert files[|front|] == f;
    forall n ensures n in Names(files) <==> n in Names(front) || n == f.name {
      if n in Names(front) {
        var g :| g in front && g.name == n;
        assert g in files;
      }
      if n == f.name { assert f in files; }
    }
    if DistinctNames(files) {
      forall i, j | 0 <= i < j < |front| ensures front[i].name != front[j].name {
        assert files[i] == front[i] && files[j] == front[j];
      }
      forall i | 0 <= i < |front| ensures front[i].name != f.name {
        assert files[i] == front[i];
      }
    }
    if DistinctNames(front) && f.name !in Names(front) {
      forall i, j | 0 <= i < j < |files| ensures files[i].name != files[j].name {
        assert files[i] == front[i] && front[i] in front;
      }
    }
  }

  /** A watermark just recorded for these files reports no drift if and only if
      their basenames are distinct. */
  lemma {:induction false} SettlesIffDistinctNames(wm: Watermark, files: seq<File>)
    requires Sizes(wm.files, files)
    ensures !Drifted(wm, files) <==> DistinctNames(files)
  {
    NamesCount(files);
    assert |wm.files| == |wm.files.Keys|;
    if DistinctNames(files) {
      forall f | f in files ensures f.name in wm.files && wm.files[f.name].size == |f.data| {
        var i :| 0 <= i < |files| && files[i] == f;
      }
    }
  }
}
