/** How accepted records build up one session, and why records merged onto an
    indexed session give what one pass over all records gives. */
module IngestSessions {
  import opened Prelude
  import opened Ingest

  /** The items of session k, added to s in order. */
  function Grown(s: Accum, k: string, items: seq<Item>): Accum
    decreases |items|
  {
    if items == [] then s
    else Grown(if items[0].key == k then AddItem(s, items[0]) else s, k, items[1..])
  }

  function FirstOf(items: seq<Item>, k: string): Option<Item> {
    if items == [] then None else if items[0].key == k then Some(items[0]) else FirstOf(items[1..], k)
  }

  /** Sessions are independent: each is built from its own items alone. */
  lemma {:induction false} SessionOf(existing: Index, sessions: Sessions, items: seq<Item>, k: string)
    ensures var out, first := AddAll(existing, sessions, items), FirstOf(items, k);
            if k in sessions then k in out && out[k] == Grown(sessions[k], k, items)
            else if first.None? then k !in out
            else k in out && out[k] == Grown(Seed(existing, k, first.value.source), k, items)
    decreases |items|
  {
    if items != [] {
      SessionOf(existing, AddTo(existing, sessions, items[0]), items[1..], k);
    }
  }

  lemma {:induction false} GrownOfMore(s: Accum, k: string, a: seq<Item>, b: seq<Item>)
    ensures Grown(s, k, a + b) == Grown(Grown(s, k, a), k, b)
    decreases |a|
  {
    if a == [] {
      assert a + b == b;
    } else {
      assert (a + b)[1..] == a[1..] + b;
      GrownOfMore(if a[0].key == k then AddItem(s, a[0]) else s, k, a[1..], b);
    }
  }

  lemma {:induction false} FirstOfMore(a: seq<Item>, b: seq<Item>, k: string)
    ensures FirstOf(a + b, k) == if FirstOf(a, k).Some? then FirstOf(a, k) else FirstOf(b, k)
  {
    if a == [] {
      assert a + b == b;
    } else {
      assert (a + b)[1..] == a[1..] + b;
      FirstOfMore(a[1..], b, k);
    }
  }

  lemma {:induction false} NoItems(s: Accum, k: string, items: seq<Item>)
    requires FirstOf(items, k).None?
    ensures Grown(s, k, items) == s && UuidsIn(items, k) == {}
    decreases |items|
  {
    if items != [] { NoItems(s, k, items[1..]); }
  }

  // ------------------------------------------------------- keys and uuids

  function Ids(keys: set<Key>): set<string> { set key | key in keys :: key.id }

  function UuidsOf(turns: seq<Turn>): set<string> { set t | t in turns :: t.uuid }

  /** The uuids the items of session k carry. */
  function UuidsIn(items: seq<Item>, k: string): set<string>
    decreases |items|
  {
    if items == [] then {}
    else (if items[0].key == k then {items[0].dedup.id} else {}) + UuidsIn(items[1..], k)
  }

  predicate Shaped(key: Key) { key.Hashed? ==> IsContentHash(key.id) }

  predicate AllShaped(items: seq<Item>) { forall i :: 0 <= i < |items| ==> Shaped(items[i].dedup) }

  /** The keys seen are those of the turns, up to their namespace. */
  predicate Faithful(s: Accum) {
    Ids(s.seen) == UuidsOf(s.entry.session.turns) && forall key :: key in s.seen ==> Shaped(key)
  }

  lemma {:induction false} UuidsOfMore(turns: seq<Turn>, t: Turn)
    ensures UuidsOf(turns + [t]) == UuidsOf(turns) + {t.uuid}
  {
    var all := turns + [t];
    assert all[|turns|] == t;
    forall u ensures u in UuidsOf(all) <==> u in UuidsOf(turns) || u == t.uuid {
      if u in UuidsOf(turns) {
        var x :| x in turns && x.uuid == u;
        assert x in all;
      }
      if u == t.uuid { assert t in all; }
    }
  }

  lemma {:induction false} AddItemKeepsFaithful(s: Accum, item: Item)
    requires Faithful(s) && Shaped(item.dedup)
    ensures Faithful(AddItem(s, item)) && item.dedup in AddItem(s, item).seen && s.seen <= AddItem(s, item).seen
    ensures UuidsOf(AddItem(s, item).entry.session.turns) == UuidsOf(s.entry.session.turns) + {item.dedup.id}
  {
    if item.dedup in s.seen {
      assert item.dedup.id in Ids(s.seen);
    } else {
      UuidsOfMore(s.entry.session.turns, TurnOf(item, |s.entry.session.turns|));
      assert Ids(s.seen + {item.dedup}) == Ids(s.seen) + {item.dedup.id};
    }
  }

  /** The uuids of a session are those of its items, in whatever order and however
      often they come. */
  lemma {:induction false} GrownUuids(s: Accum, k: string, items: seq<Item>)
    requires Faithful(s) && AllShaped(items)
    ensures Faithful(Grown(s, k, items)) && s.seen <= Grown(s, k, items).seen
    ensures UuidsOf(Grown(s, k, items).entry.session.turns) == UuidsOf(s.entry.session.turns) + UuidsIn(items, k)
    decreases |items|
  {
    if items != [] {
      var s1 := if items[0].key == k then AddItem(s, items[0]) else s;
      if items[0].key == k { AddItemKeepsFaithful(s, items[0]); }
      assert AllShaped(items[1..]);
      GrownUuids(s1, k, items[1..]);
    }
  }

  lemma {:induction false} SeededKeys(turns: seq<Turn>)
    ensures Ids(Seeded(turns)) == UuidsOf(turns)
    ensures forall key :: key in Seeded(turns) ==> Shaped(key)
    ensures forall key :: Shaped(key) && key.id in UuidsOf(turns) ==> key in Seeded(turns)
  {
    forall u ensures u in Ids(Seeded(turns)) <==> u in UuidsOf(turns) {
      if u in UuidsOf(turns) {
        var t :| t in turns && t.uuid == u;
        assert Stable(u) in SeedKeys(t);
        assert Stable(u) in Seeded(turns);
      }
    }
    forall key | Shaped(key) && key.id in UuidsOf(turns) ensures key in Seeded(turns) {
      var t :| t in turns && t.uuid == key.id;
      assert key in SeedKeys(t);
    }
  }

  lemma SeedIsFaithful(existing: Index, k: string, source: string)
    ensures Faithful(Seed(existing, k, source))
  {
    if k in existing { SeededKeys(existing[k].session.turns); }
  }

  /** Keys seeded from indexed turns cover every key their records could have had,
      and a shaped key is seeded exactly when a turn carries its uuid. */
  lemma {:induction false} SeedingCovers(s: Accum)
    requires Faithful(s)
    ensures s.seen <= Seeded(s.entry.session.turns)
    ensures Ids(Seeded(s.entry.session.turns)) == Ids(s.seen)
  {
    SeededKeys(s.entry.session.turns);
    forall key | key in s.seen ensures key in Seeded(s.entry.session.turns) {
      assert key.id in Ids(s.seen);
    }
  }

  // ------------------------------------------- merged onto what is indexed

  function Unstamped(e: Entry): Entry { e.(session := e.session.(size := 0, mtime := 0)) }

  /** The session one pass over all items builds. */
  function Reference(items: seq<Item>, k: string): Option<Entry> {
    var first := FirstOf(items, k);
    if first.None? then None else Some(Unstamped(Whole(items, k, first.value.source).entry))
  }

  function Whole(items: seq<Item>, k: string, source: string): Accum {
    Grown(Accum(NewEntry(source), {}, 0), k, items)
  }

  /** The indexed session without its stamp. */
  function At(idx: Index, k: string): Option<Entry> { if k in idx then Some(Unstamped(idx[k])) else None }

  /** Same session; part may have seen more namespaces of the same ids. */
  predicate Alike(full: Accum, part: Accum) {
    && Unstamped(full.entry) == Unstamped(part.entry)
    && full.seen <= part.seen && Ids(part.seen) == Ids(full.seen)
  }

  function DedupsIn(items: seq<Item>, k: string): set<Key>
    decreases |items|
  {
    if items == [] then {} else (if items[0].key == k then {items[0].dedup} else {}) + DedupsIn(items[1..], k)
  }

  /** No stable_id equals a content hash. */
  predicate NoClash(keys: set<Key>) {
    forall a, b :: a in keys && b in keys && a.id == b.id ==> a == b
  }

  lemma {:induction false} AlikeAdd(full: Accum, part: Accum, item: Item, keys: set<Key>)
    requires Alike(full, part) && NoClash(keys) && full.seen <= keys && item.dedup in keys
    ensures Alike(AddItem(full, item), AddItem(part, item)) && AddItem(full, item).seen <= keys
  {
    assert item.dedup in part.seen ==> item.dedup.id in Ids(part.seen);
    if item.dedup !in part.seen {
      assert Ids(part.seen + {item.dedup}) == Ids(part.seen) + {item.dedup.id};
      assert Ids(full.seen + {item.dedup}) == Ids(full.seen) + {item.dedup.id};
      SameTurnAdded(full.entry, part.entry, item);
    }
  }

  lemma SameTurnAdded(a: Entry, b: Entry, item: Item)
    requires Unstamped(a) == Unstamped(b)
    ensures Unstamped(AddTurn(a, item)) == Unstamped(AddTurn(b, item))
  {
  }

  lemma {:induction false} AlikeGrown(full: Accum, part: Accum, k: string, items: seq<Item>, keys: set<Key>)
    requires Alike(full, part) && NoClash(keys) && full.seen <= keys && DedupsIn(items, k) <= keys
    ensures Alike(Grown(full, k, items), Grown(part, k, items))
    decreases |items|
  {
    if items != [] {
      if items[0].key == k {
        AlikeAdd(full, part, items[0], keys);
        AlikeGrown(AddItem(full, items[0]), AddItem(part, items[0]), k, items[1..], keys);
      } else {
        AlikeGrown(full, part, k, items[1..], keys);
      }
    }
  }

  lemma {:induction false} DedupsOfMore(a: seq<Item>, b: seq<Item>, k: string)
    ensures DedupsIn(a + b, k) == DedupsIn(a, k) + DedupsIn(b, k)
    decreases |a|
  {
    if a == [] {
      assert a + b == b;
    } else {
      assert (a + b)[1..] == a[1..] + b;
      DedupsOfMore(a[1..], b, k);
    }
  }

  lemma {:induction false} UuidsInMore(a: seq<Item>, b: seq<Item>, k: string)
    ensures UuidsIn(a + b, k) == UuidsIn(a, k) + UuidsIn(b, k)
    decreases |a|
  {
    if a == [] {
      assert a + b == b;
    } else {
      assert (a + b)[1..] == a[1..] + b;
      UuidsInMore(a[1..], b, k);
    }
  }

  lemma {:induction false} GrownSeen(s: Accum, k: string, items: seq<Item>)
    ensures Grown(s, k, items).seen == s.seen + DedupsIn(items, k)
    decreases |items|
  {
    if items != [] {
      GrownSeen(if items[0].key == k then AddItem(s, items[0]) else s, k, items[1..]);
    }
  }

  lemma {:induction false} AddedGrows(s: Accum, k: string, items: seq<Item>)
    ensures var g := Grown(s, k, items); g.added >= s.added && (g.added == s.added ==> g == s)
    ensures |s.entry.session.turns| <= |Grown(s, k, items).entry.session.turns|
    ensures s.entry.session.turnCount == |s.entry.session.turns| ==>
              Grown(s, k, items).entry.session.turnCount == |Grown(s, k, items).entry.session.turns|
    decreases |items|
  {
    if items != [] {
      AddedGrows(if items[0].key == k then AddItem(s, items[0]) else s, k, items[1..]);
    }
  }

  /** A session that gained a turn is counted right, whatever it was counted before. */
  lemma {:induction false} CountedWhenGrown(s: Accum, k: string, items: seq<Item>)
    ensures var g := Grown(s, k, items); g.added > s.added ==> g.entry.session.turnCount == |g.entry.session.turns|
    decreases |items|
  {
    if items != [] {
      var s1 := if items[0].key == k then AddItem(s, items[0]) else s;
      CountedWhenGrown(s1, k, items[1..]);
      if s1.added > s.added { AddedGrows(s1, k, items[1..]); }
    }
  }

  lemma {:induction false} NothingNew(s: Accum, k: string, items: seq<Item>)
    requires DedupsIn(items, k) <= s.seen
    ensures Grown(s, k, items) == s
    decreases |items|
  {
    if items != [] { NothingNew(s, k, items[1..]); }
  }

  /** A session has records exactly when it has keys, and uuids. */
  lemma {:induction false} HasDedup(items: seq<Item>, k: string)
    ensures FirstOf(items, k).Some? <==> DedupsIn(items, k) != {}
    ensures FirstOf(items, k).Some? <==> UuidsIn(items, k) != {}
  {
    if items != [] {
      HasDedup(items[1..], k);
      if items[0].key == k {
        assert items[0].dedup in DedupsIn(items, k) && items[0].dedup.id in UuidsIn(items, k);
      }
    }
  }

  /** A session not yet indexed gains a turn from its first record. */
  lemma {:induction false} NewSessionIsTouched(idx: Index, k: string, source: string, items: seq<Item>)
    requires k !in idx && FirstOf(items, k).Some?
    ensures Grown(Seed(idx, k, source), k, items).added > 0
  {
    HasDedup(items, k);
    GrownSeen(Seed(idx, k, source), k, items);
    AddedGrows(Seed(idx, k, source), k, items);
  }

  /** What merging new items onto the indexed session k leaves in the index. */
  function Merged(idx: Index, k: string, items: seq<Item>): Option<Entry> {
    var first := FirstOf(items, k);
    if first.None? then At(idx, k)
    else Some(Unstamped(Grown(Seed(idx, k, first.value.source), k, items).entry))
  }

  /** Merging the new items onto a session built from the old ones gives the
      session built from all of them. */
  lemma {:induction false} MergeReachesWhole(idx: Index, k: string, before: seq<Item>, after: seq<Item>)
    requires At(idx, k) == Reference(before, k)
    requires AllShaped(before) && NoClash(DedupsIn(before + after, k))
    ensures Merged(idx, k, after) == Reference(before + after, k)
  {
    FirstOfMore(before, after, k);
    var first := FirstOf(before, k);
    if first.None? {
      NewSession(idx, k, before, after);
    } else {
      var start := Accum(NewEntry(first.value.source), {}, 0);
      GrownOfMore(start, k, before, after);
      if FirstOf(after, k).None? {
        NoItems(Grown(start, k, before), k, after);
      } else {
        KnownSession(idx, k, before, after, first.value.source, FirstOf(after, k).value.source);
      }
    }
  }

  lemma {:induction false} NewSession(idx: Index, k: string, before: seq<Item>, after: seq<Item>)
    requires At(idx, k) == Reference(before, k) && FirstOf(before, k).None?
    ensures Merged(idx, k, after) == Reference(before + after, k)
  {
    FirstOfMore(before, after, k);
    var first := FirstOf(after, k);
    if first.Some? {
      var start := Accum(NewEntry(first.value.source), {}, 0);
      GrownOfMore(start, k, before, after);
      NoItems(start, k, before);
    }
  }

  lemma {:induction false} KnownSession(
    idx: Index, k: string, before: seq<Item>, after: seq<Item>, source: string, later: string)
    requires k in idx && Unstamped(idx[k]) == Unstamped(Whole(before, k, source).entry)
    requires AllShaped(before) && NoClash(DedupsIn(before + after, k))
    ensures Unstamped(Grown(Seed(idx, k, later), k, after).entry)
         == Unstamped(Grown(Whole(before, k, source), k, after).entry)
  {
    var start, full, part := Accum(NewEntry(source), {}, 0), Whole(before, k, source), Seed(idx, k, later);
    GrownUuids(start, k, before);
    SeedingCovers(full);
    assert full.entry.session.turns == idx[k].session.turns;
    GrownSeen(start, k, before);
    DedupsOfMore(before, after, k);
    AlikeGrown(full, part, k, after, DedupsIn(before + after, k));
  }

  /** The exact price of seeding both namespaces: one new record of an indexed
      session is treated differently from the full parse if and only if its id
      was indexed under the other namespace only. */
  lemma {:induction false} SeedingDiffersIffClash(s: Accum, item: Item)
    requires Faithful(s) && Shaped(item.dedup)
    ensures (item.dedup in Seeded(s.entry.session.turns)) != (item.dedup in s.seen) <==>
            item.dedup !in s.seen && item.dedup.id in Ids(s.seen)
  {
    SeedingCovers(s);
    SeededKeys(s.entry.session.turns);
    if item.dedup in Seeded(s.entry.session.turns) {
      assert item.dedup.id in Ids(Seeded(s.entry.session.turns));
    }
  }
}
