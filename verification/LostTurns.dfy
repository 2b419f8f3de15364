/** A lost turns file whose meta entry survives. The watermark is checked against the
    meta's turn count (internal/conversations/ingest_watermark.go:164-186), while
    the delta seeds a session from the turns actually read, none for a missing file
    (internal/conversations/index.go:1275-1284). */
module LostTurns {
  import opened Prelude
  import opened Ingest
  import opened IngestDelta
  import opened IngestFiles
  import opened IngestTheorems
  import S = IngestSessions

  /** Session k's turns file is gone; its meta entry is as it was. */
  function Lost(idx: Index, k: string): Index
    requires k in idx
  {
    idx[k := idx[k].(session := idx[k].session.(turns := []))]
  }

  /** The loss goes unnoticed: the watermark stays exactly as usable as it was. */
  lemma LossIsUnnoticed(src: Source, idx: Index, files: seq<File>, wm: Option<Watermark>, k: string)
    requires k in idx
    ensures Usable(src, Lost(idx, k), files, wm) <==> Usable(src, idx, files, wm)
  {
  }

  // ------------------------------------------------------------ counting turns

  /** A session gains one turn for every key it has not seen. */
  lemma {:induction false} OneTurnPerKey(s: Accum, k: string, items: seq<Item>)
    ensures |S.Grown(s, k, items).entry.session.turns| == |s.entry.session.turns| + |S.DedupsIn(items, k) - s.seen|
    decreases |items|
  {
    if items != [] {
      var item, rest := items[0], items[1..];
      if item.key == k {
        OneTurnPerKey(AddItem(s, item), k, rest);
        OneKeyLess(S.DedupsIn(rest, k), s.seen, item.dedup);
      } else {
        OneTurnPerKey(s, k, rest);
        assert S.DedupsIn(items, k) == S.DedupsIn(rest, k);
      }
    }
  }

  lemma OneKeyLess(keys: set<Key>, seen: set<Key>, key: Key)
    ensures key in seen ==> ({key} + keys) - seen == keys - seen
    ensures key !in seen ==> |({key} + keys) - seen| == 1 + |keys - (seen + {key})|
  {
    if key !in seen { assert ({key} + keys) - seen == {key} + (keys - (seen + {key})); }
  }

  lemma {:induction false} WholeCounts(items: seq<Item>, k: string, source: string)
    ensures |S.Whole(items, k, source).entry.session.turns| == |S.DedupsIn(items, k)|
    ensures S.Whole(items, k, source).entry.session.turnCount == |S.DedupsIn(items, k)|
  {
    var start := Accum(NewEntry(source), {}, 0);
    OneTurnPerKey(start, k, items);
    assert S.DedupsIn(items, k) - {} == S.DedupsIn(items, k);
    S.AddedGrows(start, k, items);
  }

  // ------------------------------------------------------- what the delta leaves

  /** From a lost turns file the delta leaves one turn per new key. */
  lemma {:induction false} LostCounts(idx: Index, k: string, more: seq<Item>)
    requires k in idx && S.FirstOf(more, k).Some?
    ensures var e := S.Merged(Lost(idx, k), k, more);
            e.Some? && |e.value.session.turns| == |S.DedupsIn(more, k)|
  {
    var seed := Seed(Lost(idx, k), k, S.FirstOf(more, k).value.source);
    assert Seeded([]) == {};
    OneTurnPerKey(seed, k, more);
    assert S.DedupsIn(more, k) - {} == S.DedupsIn(more, k);
  }

  lemma {:induction false} ReferenceCounts(items: seq<Item>, k: string)
    requires S.FirstOf(items, k).Some?
    ensures var e := S.Reference(items, k);
            e.Some? && |e.value.session.turns| == e.value.session.turnCount == |S.DedupsIn(items, k)| > 0
  {
    WholeCounts(items, k, S.FirstOf(items, k).value.source);
    S.HasDedup(items, k);
  }

  lemma SameSizeMeansWithin(a: set<Key>, b: set<Key>)
    requires |b| == |a + b|
    ensures a <= b
  {
    assert a + b == b + (a - b);
    assert |a + b| == |b| + |a - b|;
  }

  /** If merging onto a lost turns file gives the session of all records after all,
      then every lost record was emitted again. */
  lemma {:induction false} LossHealsOnlyByReemission(idx: Index, k: string, before: seq<Item>, more: seq<Item>)
    requires k in idx && S.FirstOf(more, k).Some?
    requires S.Merged(Lost(idx, k), k, more) == S.Reference(before + more, k)
    ensures S.DedupsIn(before, k) <= S.DedupsIn(more, k)
  {
    LostCounts(idx, k, more);
    S.FirstOfMore(before, more, k);
    ReferenceCounts(before + more, k);
    S.DedupsOfMore(before, more, k);
    SameSizeMeansWithin(S.DedupsIn(before, k), S.DedupsIn(more, k));
  }

  /** For new records of an indexed session, merged onto its turns or onto a lost
      turns file: the result is the session of all records if and only if the turns
      read are as many as the meta entry counts. */
  lemma {:induction false} MergeIsRightIffCountsAgree(
    idx: Index, read: Index, k: string, before: seq<Item>, more: seq<Item>)
    requires k in idx && (read == idx || read == Lost(idx, k)) && S.At(idx, k) == S.Reference(before, k)
    requires S.AllShaped(before) && S.NoClash(S.DedupsIn(before + more, k))
    requires S.FirstOf(more, k).Some? && S.DedupsIn(before, k) !! S.DedupsIn(more, k)
    ensures S.Merged(read, k, more) == S.Reference(before + more, k) <==>
            |read[k].session.turns| == read[k].session.turnCount
  {
    ReferenceCounts(before, k);
    S.MergeReachesWhole(idx, k, before, more);
    if read != idx && S.Merged(read, k, more) == S.Reference(before + more, k) {
      LossHealsOnlyByReemission(idx, k, before, more);
    }
  }

  /** One delta, in file order, over an index of which session k's turns may be lost:
      the delta runs all the same, session k comes out as the full parse has it if
      and only if the turns read are as many as its meta entry counts, and the
      watermark records whatever came out. */
  lemma {:induction false} DeltaIsRightIffCountsAgree(
    src: Source, s: State, read: Index, prev: seq<File>, next: seq<File>, k: string)
    requires HashesAreHex(src.env) && Snapshot(src, prev) && Snapshot(src, next) && GrowsInOrder(prev, next)
    requires CaughtUp(src, s, prev) && Usable(src, s.index, next, s.watermark)
    requires k in s.index && (read == s.index || read == Lost(s.index, k))
    requires S.At(s.index, k) == S.Reference(FullItems(src, prev), k) && S.NoClash(S.DedupsIn(FullItems(src, next), k))
    requires var more := Collect(Accepted(src.env), Past(FullMarks(prev)), next);
             S.FirstOf(more, k).Some? && S.DedupsIn(FullItems(src, prev), k) !! S.DedupsIn(more, k)
    ensures Usable(src, read, next, s.watermark)
    ensures var after := Delta(src, read, next, s.watermark.value);
            && (S.At(after.index, k) == S.At(Full(src, read, next).index, k) <==>
                  |read[k].session.turns| == read[k].session.turnCount)
            && k in after.index && k in after.watermark.value.sessions
            && after.watermark.value.sessions[k] == after.index[k].session.turnCount == |after.index[k].session.turns|
  {
    var more := Collect(Accepted(src.env), Past(FullMarks(prev)), next);
    LossIsUnnoticed(src, s.index, next, s.watermark, k);
    InOrderItems(src, prev, next);
    ItemsAreShaped(src.env, Whole, prev);
    S.FirstOfMore(FullItems(src, prev), more, k);
    DeltaAt(src, read, next, s.watermark.value, k);
    FullAt(src, read, next, k);
    MergeIsRightIffCountsAgree(s.index, read, k, FullItems(src, prev), more);
    TouchedIsRecorded(src, s, read, prev, next, k);
  }

  /** A session that gains a turn is recorded with the turns it then has. */
  lemma {:induction false} TouchedIsRecorded(
    src: Source, s: State, read: Index, prev: seq<File>, next: seq<File>, k: string)
    requires HashesAreHex(src.env) && CaughtUp(src, s, prev) && k in s.index && (read == s.index || read == Lost(s.index, k))
    requires S.At(s.index, k) == S.Reference(FullItems(src, prev), k)
    requires var more := Collect(Accepted(src.env), Past(FullMarks(prev)), next);
             S.FirstOf(more, k).Some? && S.DedupsIn(FullItems(src, prev), k) !! S.DedupsIn(more, k)
             && S.NoClash(S.DedupsIn(FullItems(src, prev) + more, k))
    ensures var after := Delta(src, read, next, s.watermark.value);
            && k in after.index && k in after.watermark.value.sessions
            && after.watermark.value.sessions[k] == after.index[k].session.turnCount == |after.index[k].session.turns|
  {
    var more := Collect(Accepted(src.env), Past(FullMarks(prev)), next);
    var seed := Seed(read, k, S.FirstOf(more, k).value.source);
    var grown := S.Grown(seed, k, more);
    S.SessionOf(read, map[], more, k);
    NewKeyIsUnseen(src, s.index, read, prev, k, more);
    S.AddedGrows(seed, k, more);
    S.CountedWhenGrown(seed, k, more);
  }

  lemma {:induction false} NewKeyIsUnseen(src: Source, idx: Index, read: Index, prev: seq<File>, k: string, more: seq<Item>)
    requires HashesAreHex(src.env) && k in idx && (read == idx || read == Lost(idx, k))
    requires S.At(idx, k) == S.Reference(FullItems(src, prev), k) && S.FirstOf(more, k).Some?
    requires S.DedupsIn(FullItems(src, prev), k) !! S.DedupsIn(more, k)
    requires S.NoClash(S.DedupsIn(FullItems(src, prev) + more, k))
    ensures var seed := Seed(read, k, S.FirstOf(more, k).value.source); S.Grown(seed, k, more).added > seed.added
  {
    var before, seed := FullItems(src, prev), Seed(read, k, S.FirstOf(more, k).value.source);
    S.HasDedup(more, k);
    var key :| key in S.DedupsIn(more, k);
    if read == idx { UnseenKey(src, idx, prev, k, more, key); } else { assert Seeded([]) == {}; }
    assert key !in seed.seen;
    S.GrownSeen(seed, k, more);
    S.AddedGrows(seed, k, more);
  }

  lemma {:induction false} UnseenKey(src: Source, idx: Index, prev: seq<File>, k: string, more: seq<Item>, key: Key)
    requires HashesAreHex(src.env) && k in idx && S.At(idx, k) == S.Reference(FullItems(src, prev), k)
    requires key in S.DedupsIn(more, k) && S.DedupsIn(FullItems(src, prev), k) !! S.DedupsIn(more, k)
    requires S.NoClash(S.DedupsIn(FullItems(src, prev) + more, k))
    ensures key !in Seeded(idx[k].session.turns)
  {
    var before := FullItems(src, prev);
    var source := S.FirstOf(before, k).value.source;
    var start, whole := Accum(NewEntry(source), {}, 0), S.Whole(before, k, source);
    ItemsAreShaped(src.env, Whole, prev);
    S.GrownUuids(start, k, before);
    S.GrownSeen(start, k, before);
    S.SeedingCovers(whole);
    S.DedupsOfMore(before, more, k);
    assert whole.entry.session.turns == idx[k].session.turns;
    assert key in Seeded(idx[k].session.turns) ==> key.id in S.Ids(whole.seen);
  }
}
