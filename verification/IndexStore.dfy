/** One index instance over its directory (`Load`, `LoadIfChanged`,
    `UpsertSessions`, `DeleteSessions` and `writeMetaFileLocked`,
    internal/conversations/index.go), with every lock, turns write and meta
    commit free to fail. Interleavings are the subject of IndexProtocol. */
module IndexStore {
  import opened Prelude
  import opened MetaMerge
  import C = TurnsCache

  datatype Item<V> = Item(sid: string, meta: V, turns: seq<Turn>)

  /** Which operations go through: session locks, turns-file operations, and the
      one meta commit. */
  datatype Faults = Faults(locks: string -> bool, files: string -> bool, commit: bool)

  datatype Fault = LockFailed | FileFailed | CommitFailed

  datatype Outcome = Outcome(sid: string, error: Option<Fault>)

  // ------------------------------------------------------------ specification

  /** The last item of the batch for each id. */
  function Latest<V>(batch: seq<Item<V>>): map<string, Item<V>> {
    if batch == [] then map[]
    else Latest(batch[..|batch| - 1])[batch[|batch| - 1].sid := batch[|batch| - 1]]
  }

  predicate Written(f: Faults, sid: string) { f.locks(sid) && f.files(sid) }

  /** The ids that reach the meta commit, in lock order. */
  function Reaching(f: Faults, ids: seq<string>): (r: seq<string>)
    ensures forall sid :: sid in r <==> sid in ids && Written(f, sid)
    ensures |r| <= |ids|
  {
    if ids == [] then []
    else
      var front, sid := Reaching(f, ids[..|ids| - 1]), ids[|ids| - 1];
      if Written(f, sid) then front + [sid] else front
  }

  /** What an id's outcome must be: the first phase it failed, if any. */
  function Expected(f: Faults, sid: string): Option<Fault> {
    if !f.locks(sid) then Some(LockFailed)
    else if !f.files(sid) then Some(FileFailed)
    else if !f.commit then Some(CommitFailed)
    else None
  }

  /** One outcome per distinct id, in increasing order, each what it must be. */
  ghost predicate Isolated(f: Faults, ids: set<string>, outcomes: seq<Outcome>) {
    && (forall i, j :: 0 <= i < j < |outcomes| ==> Less(outcomes[i].sid, outcomes[j].sid))
    && (forall i :: 0 <= i < |outcomes| ==> outcomes[i].sid in ids && outcomes[i].error == Expected(f, outcomes[i].sid))
    && (forall sid :: sid in ids ==> exists i :: 0 <= i < |outcomes| && outcomes[i].sid == sid)
  }

  function UpsertDelta<V>(f: Faults, latest: map<string, Item<V>>): MetaDelta<V> {
    MetaDelta(map sid | sid in latest && Written(f, sid) :: latest[sid].meta, {})
  }

  function DeleteDelta<V>(f: Faults, ids: set<string>): MetaDelta<V> {
    MetaDelta(map[], set sid | sid in ids && Written(f, sid))
  }

  /** A map after the commit of a delta, or after its failure. */
  function After<V>(f: Faults, m: map<string, V>, delta: MetaDelta<V>): map<string, V> {
    if f.commit then Merge(m, delta) else m
  }

  function Content<V>(file: Option<map<string, V>>): map<string, V> { if file.Some? then file.value else map[] }

  function Puts<V>(latest: map<string, Item<V>>, sids: seq<string>): seq<C.Op> {
    seq(|sids|, i requires 0 <= i < |sids| =>
      C.Put(sids[i], if sids[i] in latest then latest[sids[i]].turns else []))
  }

  /** The entries of sessions outside the set, in order. */
  function Sans(list: seq<C.Entry>, sids: set<string>): seq<C.Entry> {
    if list == [] then []
    else (if list[0].sid in sids then [] else [list[0]]) + Sans(list[1..], sids)
  }

  /** The turns files after the writes of a batch. */
  function TurnsAfter<V>(f: Faults, latest: map<string, Item<V>>, turns: map<string, seq<Turn>>, held: seq<string>)
    : map<string, seq<Turn>>
  {
    if held == [] then turns
    else
      var before, sid := TurnsAfter(f, latest, turns, held[..|held| - 1]), held[|held| - 1];
      if sid in latest && Written(f, sid) then before[sid := latest[sid].turns] else before
  }

  /** The ids among these that failed with the given fault are those that fail the
      test. */
  ghost predicate FailedExactly(test: string -> bool, ids: seq<string>, failed: map<string, Fault>, fault: Fault) {
    forall sid :: (sid in failed <==> sid in ids && !test(sid)) && (sid in failed ==> failed[sid] == fault)
  }

  /** What the phases before the meta commit leave as failures. */
  ghost predicate Failures(f: Faults, ids: seq<string>, failed: map<string, Fault>) {
    forall sid ::
      && (sid in failed <==> sid in ids && !Written(f, sid))
      && (sid in failed ==> Some(failed[sid]) == Expected(f, sid))
  }

  /** And all phases. */
  ghost predicate AllFailures(f: Faults, ids: seq<string>, failed: map<string, Fault>) {
    forall sid ::
      && (sid in failed <==> sid in ids && Expected(f, sid).Some?)
      && (sid in failed ==> Some(failed[sid]) == Expected(f, sid))
  }

  // ------------------------------------------------------------------ sorting

  method SortedIds(keys: set<string>) returns (ids: seq<string>)
    ensures Increasing(ids) && ToSet(ids) == keys
  {
    ids := [];
    var todo := keys;
    while todo != {}
      invariant todo <= keys && Increasing(ids) && ToSet(ids) == keys - todo
      decreases todo
    {
      var sid :| sid in todo;
      assert sid !in ids by { assert sid !in ToSet(ids); }
      ids := InsertSorted(ids, sid);
      todo := todo - {sid};
    }
  }

  method InsertSorted(ids: seq<string>, sid: string) returns (r: seq<string>)
    requires Increasing(ids) && sid !in ids
    ensures Increasing(r) && ToSet(r) == ToSet(ids) + {sid}
  {
    var i := 0;
    while i < |ids| && Less(ids[i], sid)
      invariant i <= |ids| && forall j :: 0 <= j < i ==> Less(ids[j], sid)
    {
      i := i + 1;
    }
    r := ids[..i] + [sid] + ids[i..];
    InsertionSorts(ids, sid, i);
  }

  lemma {:induction false} InsertionSorts(ids: seq<string>, sid: string, i: nat)
    requires Increasing(ids) && sid !in ids && i <= |ids|
    requires (forall j :: 0 <= j < i ==> Less(ids[j], sid)) && (i < |ids| ==> !Less(ids[i], sid))
    ensures var r := ids[..i] + [sid] + ids[i..]; Increasing(r) && ToSet(r) == ToSet(ids) + {sid}
  {
    var r := ids[..i] + [sid] + ids[i..];
    forall j | i <= j < |ids| ensures Less(sid, ids[j]) {
      LessTotal(sid, ids[i]);
      assert ids[i] in ids;
      if j > i { LessTransitive(sid, ids[i], ids[j]); }
    }
    forall a, b | 0 <= a < b < |r| ensures Less(r[a], r[b]) {
      assert r[a] == if a < i then ids[a] else if a == i then sid else ids[a - 1];
      assert r[b] == if b < i then ids[b] else if b == i then sid else ids[b - 1];
    }
    forall x ensures x in r <==> x in ids || x == sid {
      assert ids == ids[..i] + ids[i..];
    }
  }

  // ------------------------------------------------------------ the directory

  /** `_meta.json`, None while it does not exist, and the turns files. Every
      rename gives the meta file a fresh mtime. */
  class Disk<V(==)> {
    var metas: Option<map<string, V>>
    var mtime: Time
    var clock: nat
    var turns: map<string, seq<Turn>>
    var commits: nat

    constructor ()
      ensures metas == None && mtime == 0 && clock == 1 && turns == map[] && commits == 0
    {
      metas, mtime, clock, turns, commits := None, 0, 1, map[], 0;
    }
  }

  class Index<V(==)> {
    const disk: Disk<V>
    const cache: C.BoundedCache
    var sessions: map<string, V>
    var lastMtime: Time
    var lastMetas: Option<map<string, V>>

    /** `LoadIfChanged` would skip the reload. */
    predicate FastPath()
      reads this, disk
    {
      disk.metas.Some? && lastMtime == disk.mtime && lastMetas == disk.metas
    }

    ghost predicate Valid()
      reads this, disk, cache
    {
      && cache.Valid()
      && disk.mtime < disk.clock && lastMtime < disk.clock
      && (FastPath() ==> sessions == Content(disk.metas))
    }

    constructor (disk: Disk<V>, limits: C.Limits)
      requires disk.mtime < disk.clock
      ensures this.disk == disk && fresh(cache) && cache.limits == limits && cache.Value() == C.EmptyCache
      ensures Valid() && sessions == map[]
    {
      this.disk := disk;
      cache := new C.BoundedCache(limits);
      sessions, lastMtime, lastMetas := map[], 0, None;
    }

    /** Reads the meta file and drops the cached turns of changed sessions. */
    method Load()
      requires Valid()
      modifies this, cache
      ensures Valid() && sessions == Content(disk.metas)
      ensures disk.metas.Some? ==> FastPath()
      ensures cache.list == if old(sessions) == map[] then [] else Sans(old(cache.list), Changed(old(sessions), sessions))
    {
      var read := Content(disk.metas);
      if sessions == map[] {
        cache.Reset();
      } else {
        DropAll(Changed(sessions, read));
      }
      sessions := read;
      lastMtime, lastMetas := disk.mtime, disk.metas;
    }

    method DropAll(changed: set<string>)
      requires cache.Valid()
      modifies cache
      ensures cache.Valid() && cache.list == Sans(old(cache.list), changed)
    {
      var todo := changed;
      ghost var list, done := cache.list, {};
      SansNone(list, done);
      while todo != {}
        invariant cache.Valid() && done + todo == changed && cache.list == Sans(list, done)
        decreases todo
      {
        var sid :| sid in todo;
        todo := DropOne(sid, todo, list, done);
        done := done + {sid};
      }
    }

    method DropOne(sid: string, todo: set<string>, ghost list: seq<C.Entry>, ghost done: set<string>)
      returns (rest: set<string>)
      requires cache.Valid() && cache.list == Sans(list, done) && sid in todo
      modifies cache
      ensures cache.Valid() && cache.list == Sans(list, done + {sid}) && rest == todo - {sid}
    {
      SansOneMore(cache.list, list, done, sid, done + {sid});
      cache.Drop(sid);
      rest := todo - {sid};
    }

    method LoadIfChanged() returns (reloaded: bool)
      requires Valid()
      modifies this, cache
      ensures Valid() && sessions == Content(disk.metas)
      ensures reloaded <==> !old(FastPath())
      ensures !reloaded ==> sessions == old(sessions) && cache.Value() == old(cache.Value())
    {
      if disk.metas.None? {
        Load();
        return true;
      }
      if disk.mtime != lastMtime {
        Load();
        return true;
      }
      if disk.metas == lastMetas { return false; }
      Load();
      reloaded := true;
    }

    /** `writeMetaFileLocked`: merges only the delta over what the file holds now,
        and refreshes the stamp only when memory plus the delta is all there is. */
    method WriteMeta(delta: MetaDelta<V>, commit: bool) returns (ok: bool)
      requires Valid()
      modifies this`lastMtime, this`lastMetas, disk`metas, disk`mtime, disk`clock, disk`commits
      ensures cache.Valid() && disk.mtime < disk.clock && lastMtime < disk.clock && ok == commit
      ensures FastPath() ==> Merge(sessions, if ok then delta else MetaDelta(map[], {})) == Content(disk.metas)
      ensures disk.metas == if ok then Some(Merge(Content(old(disk.metas)), delta)) else old(disk.metas)
      ensures disk.commits == old(disk.commits) + if ok then 1 else 0
      ensures ok && Merge(sessions, delta) == Content(disk.metas) ==> FastPath()
    {
      if !commit {
        assert Merge(sessions, MetaDelta(map[], {})) == sessions;
        return false;
      }
      var merged := Merge(Content(disk.metas), delta);
      disk.metas := Some(merged);
      disk.mtime := disk.clock;
      disk.clock := disk.clock + 1;
      disk.commits := disk.commits + 1;
      var expected := Merge(sessions, delta);
      if merged == expected {
        lastMetas, lastMtime := disk.metas, disk.mtime;
      }
      ok := true;
    }

    /** The ids whose lock was acquired, and why the others failed. */
    static method AcquireSessionLocks(ids: seq<string>, f: Faults) returns (held: seq<string>, failed: map<string, Fault>)
      ensures forall sid :: sid in held <==> sid in ids && f.locks(sid)
      ensures FailedExactly(f.locks, ids, failed, LockFailed)
      ensures Reaching(f, held) == Reaching(f, ids)
    {
      held, failed := [], map[];
      for i := 0 to |ids|
        invariant forall sid :: sid in held <==> sid in ids[..i] && f.locks(sid)
        invariant FailedExactly(f.locks, ids[..i], failed, LockFailed)
        invariant Reaching(f, held) == Reaching(f, ids[..i])
      {
        var sid := ids[i];
        assert ids[..i + 1] == ids[..i] + [sid];
        ReachingMore(f, ids[..i], sid);
        if f.locks(sid) {
          ReachingMore(f, held, sid);
          held := held + [sid];
        } else {
          failed := failed[sid := LockFailed];
        }
      }
      assert ids[..|ids|] == ids;
    }

    /** Last item per id wins; the outcome of every id is the first phase it
        failed; exactly the ids that passed all phases change memory and the meta
        file, in one commit. */
    method UpsertSessions(batch: seq<Item<V>>, f: Faults) returns (outcomes: seq<Outcome>)
      requires Valid()
      modifies this, disk, cache
      ensures Valid() && Isolated(f, Latest(batch).Keys, outcomes)
      ensures sessions == After(f, old(sessions), UpsertDelta(f, Latest(batch)))
      ensures Content(disk.metas) == After(f, Content(old(disk.metas)), UpsertDelta(f, Latest(batch)))
      ensures forall sid :: WrittenBy(f, Latest(batch), old(disk.turns), disk.turns, sid)
      ensures disk.commits <= old(disk.commits) + 1
      ensures cache.Value() == if f.commit
                then C.Run(cache.limits, old(cache.Value()), Puts(Latest(batch), Reaching(f, Ids(outcomes))))
                else old(cache.Value())
    {
      if |batch| == 0 {
        NoDelta(f, Latest(batch), sessions);
        NoDelta(f, Latest(batch), Content(disk.metas));
        return [];
      }
      var latest := Dedup(batch);
      var ids := SortedIds(latest.Keys);
      SameMembers(ids, latest.Keys);
      var failed := UpsertEach(latest, ids, f);
      outcomes := Report(ids, failed, f);
    }

    /** The three phases, for the distinct ids in lock order. */
    method UpsertEach(latest: map<string, Item<V>>, ids: seq<string>, f: Faults) returns (failed: map<string, Fault>)
      requires Valid() && forall sid :: sid in ids <==> sid in latest
      modifies this, disk, cache
      ensures Valid() && AllFailures(f, ids, failed)
      ensures sessions == After(f, old(sessions), UpsertDelta(f, latest))
      ensures Content(disk.metas) == After(f, Content(old(disk.metas)), UpsertDelta(f, latest))
      ensures forall sid :: WrittenBy(f, latest, old(disk.turns), disk.turns, sid)
      ensures disk.commits <= old(disk.commits) + 1
      ensures cache.Value() == if f.commit then C.Run(cache.limits, old(cache.Value()), Puts(latest, Reaching(f, ids)))
                               else old(cache.Value())
    {
      var held, lockFailures := AcquireSessionLocks(ids, f);
      var written, failures := WriteTurns(ids, held, latest, f, lockFailures);
      TurnsWritten(f, latest, old(disk.turns), held, ids);
      var upserts := map sid | sid in written :: latest[sid].meta;
      DeltaIs(f, latest, ids, upserts);
      var ok;
      failed, ok := Commit(MetaDelta(upserts, {}), ids, written, f, failures);
      if ok {
        PutAll(latest, written);
      }
    }

    method WriteTurns(ghost ids: seq<string>, held: seq<string>, latest: map<string, Item<V>>, f: Faults,
                      lockFailures: map<string, Fault>)
      returns (written: seq<string>, failed: map<string, Fault>)
      requires forall sid :: sid in held <==> sid in ids && f.locks(sid)
      requires FailedExactly(f.locks, ids, lockFailures, LockFailed)
      requires forall sid :: sid in held ==> sid in latest
      modifies disk`turns
      ensures written == Reaching(f, held)
      ensures disk.turns == TurnsAfter(f, latest, old(disk.turns), held)
      ensures Failures(f, ids, failed)
    {
      written := [];
      var fileFailures: map<string, Fault> := map[];
      for i := 0 to |held|
        invariant written == Reaching(f, held[..i])
        invariant disk.turns == TurnsAfter(f, latest, old(disk.turns), held[..i])
        invariant FailedExactly(f.files, held[..i], fileFailures, FileFailed)
      {
        var sid := held[i];
        OneMore(held, i);
        ReachingMore(f, held[..i], sid);
        if !f.files(sid) {
          fileFailures := fileFailures[sid := FileFailed];
        } else {
          disk.turns := disk.turns[sid := latest[sid].turns];
          written := written + [sid];
        }
      }
      assert held[..|held|] == held;
      failed := lockFailures + fileFailures;
    }

    /** The one meta commit of a batch, skipped when nothing reached it; its failure
        is shared by every id that did. */
    method CommitMeta(delta: MetaDelta<V>, ghost ids: seq<string>, reached: seq<string>, f: Faults, failures: map<string, Fault>)
      returns (failed: map<string, Fault>, ok: bool)
      requires Valid() && (reached == [] ==> delta == MetaDelta(map[], {}))
      requires Failures(f, ids, failures) && forall sid :: sid in reached <==> sid in ids && Written(f, sid)
      modifies this`lastMtime, this`lastMetas, disk`metas, disk`mtime, disk`clock, disk`commits
      ensures cache.Valid() && disk.mtime < disk.clock && lastMtime < disk.clock
      ensures FastPath() ==> Merge(sessions, if ok then delta else MetaDelta(map[], {})) == Content(disk.metas)
      ensures ok == (f.commit || reached == [])
      ensures Content(disk.metas) == if f.commit then Merge(Content(old(disk.metas)), delta) else Content(old(disk.metas))
      ensures disk.commits == old(disk.commits) + if f.commit && reached != [] then 1 else 0
      ensures AllFailures(f, ids, failed)
    {
      if |reached| == 0 {
        EmptyMerge(sessions);
        EmptyMerge(Content(disk.metas));
        NoneReached(f, ids, reached, failures);
        return failures, true;
      }
      ok := WriteMeta(delta, f.commit);
      failed := failures;
      if !ok {
        var shared := SharedFailure(reached);
        failed := failures + shared;
      }
    }

    /** The meta commit, then the same delta in memory. */
    method Commit(delta: MetaDelta<V>, ghost ids: seq<string>, reached: seq<string>, f: Faults, failures: map<string, Fault>)
      returns (failed: map<string, Fault>, ok: bool)
      requires Valid() && (reached == [] ==> delta == MetaDelta(map[], {}))
      requires Failures(f, ids, failures) && forall sid :: sid in reached <==> sid in ids && Written(f, sid)
      modifies this, disk`metas, disk`mtime, disk`clock, disk`commits
      ensures Valid() && AllFailures(f, ids, failed) && ok == (f.commit || reached == [])
      ensures sessions == After(f, old(sessions), delta)
      ensures Content(disk.metas) == After(f, Content(old(disk.metas)), delta)
      ensures disk.commits <= old(disk.commits) + 1
    {
      failed, ok := CommitMeta(delta, ids, reached, f, failures);
      EmptyMerge(sessions);
      if ok {
        sessions := Merge(sessions, delta);
      }
    }

    static method SharedFailure(reached: seq<string>) returns (failed: map<string, Fault>)
      ensures forall sid :: (sid in failed <==> sid in reached) && (sid in failed ==> failed[sid] == CommitFailed)
    {
      failed := map[];
      for i := 0 to |reached|
        invariant forall sid :: (sid in failed <==> sid in reached[..i]) && (sid in failed ==> failed[sid] == CommitFailed)
      {
        OneMore(reached, i);
        failed := failed[reached[i] := CommitFailed];
      }
      assert reached[..|reached|] == reached;
    }

    method PutAll(latest: map<string, Item<V>>, sids: seq<string>)
      requires cache.Valid() && forall sid :: sid in sids ==> sid in latest
      modifies cache
      ensures cache.Valid()
      ensures cache.Value() == C.Run(cache.limits, old(cache.Value()), Puts(latest, sids))
    {
      for i := 0 to |sids|
        invariant cache.Valid() && cache.Value() == C.Run(cache.limits, old(cache.Value()), Puts(latest, sids[..i]))
      {
        assert Puts(latest, sids[..i + 1])[..i] == Puts(latest, sids[..i]);
        cache.Insert(sids[i], latest[sids[i]].turns);
      }
      assert sids[..|sids|] == sids;
    }

    static method Report(ids: seq<string>, failed: map<string, Fault>, f: Faults) returns (outcomes: seq<Outcome>)
      requires Increasing(ids) && AllFailures(f, ids, failed)
      ensures Isolated(f, ToSet(ids), outcomes) && Ids(outcomes) == ids
    {
      outcomes := [];
      for i := 0 to |ids|
        invariant |outcomes| == i
        invariant forall j :: 0 <= j < i ==> outcomes[j] == Outcome(ids[j], Expected(f, ids[j]))
      {
        assert ids[i] in ids;
        outcomes := outcomes + [Outcome(ids[i], if ids[i] in failed then Some(failed[ids[i]]) else None)];
      }
      forall sid | sid in ToSet(ids) ensures exists i :: 0 <= i < |outcomes| && outcomes[i].sid == sid {
        var i :| 0 <= i < |ids| && ids[i] == sid;
        assert outcomes[i].sid == sid;
      }
    }

    static method Dedup(batch: seq<Item<V>>) returns (latest: map<string, Item<V>>)
      ensures latest == Latest(batch)
    {
      latest := map[];
      for i := 0 to |batch|
        invariant latest == Latest(batch[..i])
      {
        assert batch[..i + 1][..i] == batch[..i];
        latest := latest[batch[i].sid := batch[i]];
      }
      assert batch[..|batch|] == batch;
    }

    method DeleteSessions(sids: seq<string>, f: Faults) returns (outcomes: seq<Outcome>)
      requires Valid()
      modifies this, disk, cache
      ensures Valid() && Isolated(f, ToSet(sids), outcomes)
      ensures sessions == After(f, old(sessions), DeleteDelta(f, ToSet(sids)))
      ensures Content(disk.metas) == After(f, Content(old(disk.metas)), DeleteDelta(f, ToSet(sids)))
      ensures disk.turns == old(disk.turns) - DeleteDelta<V>(f, ToSet(sids)).deletes
      ensures disk.commits <= old(disk.commits) + 1
      ensures cache.list == if f.commit then Sans(old(cache.list), DeleteDelta<V>(f, ToSet(sids)).deletes)
                            else old(cache.list)
    {
      if |sids| == 0 {
        NoDeletes(f, sessions);
        NoDeletes(f, Content(disk.metas));
        SansNone(cache.list, DeleteDelta<V>(f, ToSet(sids)).deletes);
        return [];
      }
      var ids := SortedIds(ToSet(sids));
      SameMembers(ids, ToSet(sids));
      var failed := DeleteEach(ToSet(sids), ids, f);
      outcomes := Report(ids, failed, f);
    }

    method DeleteEach(sids: set<string>, ids: seq<string>, f: Faults) returns (failed: map<string, Fault>)
      requires Valid() && forall sid :: sid in ids <==> sid in sids
      modifies this, disk, cache
      ensures Valid() && AllFailures(f, ids, failed)
      ensures sessions == After(f, old(sessions), DeleteDelta(f, sids))
      ensures Content(disk.metas) == After(f, Content(old(disk.metas)), DeleteDelta(f, sids))
      ensures disk.turns == old(disk.turns) - DeleteDelta<V>(f, sids).deletes
      ensures disk.commits <= old(disk.commits) + 1
      ensures cache.list == if f.commit then Sans(old(cache.list), DeleteDelta<V>(f, sids).deletes) else old(cache.list)
    {
      var held, lockFailures := AcquireSessionLocks(ids, f);
      var removed, failures := RemoveTurns(ids, held, f, lockFailures);
      var deletes := set sid | sid in removed;
      assert deletes == DeleteDelta<V>(f, sids).deletes == ToSet(removed);
      var ok;
      failed, ok := Commit(MetaDelta(map[], deletes), ids, removed, f, failures);
      if !f.commit { SansNone(cache.list, {}); }
      if ok {
        DropAll(deletes);
      }
    }

    method RemoveTurns(ghost ids: seq<string>, held: seq<string>, f: Faults, lockFailures: map<string, Fault>)
      returns (removed: seq<string>, failed: map<string, Fault>)
      requires forall sid :: sid in held <==> sid in ids && f.locks(sid)
      requires FailedExactly(f.locks, ids, lockFailures, LockFailed)
      modifies disk`turns
      ensures removed == Reaching(f, held)
      ensures disk.turns == old(disk.turns) - ToSet(removed)
      ensures Failures(f, ids, failed)
    {
      removed := [];
      var fileFailures: map<string, Fault> := map[];
      for i := 0 to |held|
        invariant removed == Reaching(f, held[..i])
        invariant disk.turns == old(disk.turns) - ToSet(removed)
        invariant FailedExactly(f.files, held[..i], fileFailures, FileFailed)
      {
        var sid := held[i];
        OneMore(held, i);
        ReachingMore(f, held[..i], sid);
        if !f.files(sid) {
          fileFailures := fileFailures[sid := FileFailed];
        } else {
          RemoveOne(old(disk.turns), removed, sid);
          disk.turns := disk.turns - {sid};
          removed := removed + [sid];
        }
      }
      assert held[..|held|] == held;
      failed := lockFailures + fileFailures;
    }
  }

  function Ids(outcomes: seq<Outcome>): seq<string> {
    seq(|outcomes|, i requires 0 <= i < |outcomes| => outcomes[i].sid)
  }

  /** Session sid's turns file holds its last item's turns if they were written,
      and is as it was otherwise. */
  predicate WrittenBy<V>(f: Faults, latest: map<string, Item<V>>, before: map<string, seq<Turn>>, after: map<string, seq<Turn>>, sid: string)
  {
    if sid in latest && Written(f, sid) then sid in after && after[sid] == latest[sid].turns
    else (sid in after <==> sid in before) && (sid in after ==> after[sid] == before[sid])
  }

  lemma {:induction false} TurnsWritten<V>(
    f: Faults, latest: map<string, Item<V>>, before: map<string, seq<Turn>>, held: seq<string>, ids: seq<string>)
    requires forall sid :: sid in held <==> sid in ids && f.locks(sid)
    requires forall sid :: sid in ids <==> sid in latest
    ensures forall sid :: WrittenBy(f, latest, before, TurnsAfter(f, latest, before, held), sid)
  {
    forall sid ensures WrittenBy(f, latest, before, TurnsAfter(f, latest, before, held), sid) {
      TurnsAt(f, latest, before, held, sid);
    }
  }

  lemma {:induction false} TurnsAt<V>(
    f: Faults, latest: map<string, Item<V>>, before: map<string, seq<Turn>>, held: seq<string>, sid: string)
    ensures var after := TurnsAfter(f, latest, before, held);
            if sid in held && sid in latest && Written(f, sid) then sid in after && after[sid] == latest[sid].turns
            else (sid in after <==> sid in before) && (sid in after ==> after[sid] == before[sid])
  {
    if held != [] {
      TurnsAt(f, latest, before, held[..|held| - 1], sid);
      assert held == held[..|held| - 1] + [held[|held| - 1]];
    }
  }

  lemma SameMembers(ids: seq<string>, keys: set<string>)
    requires ToSet(ids) == keys
    ensures forall sid :: sid in ids <==> sid in keys
  {
    assert forall sid :: sid in ids <==> sid in ToSet(ids);
  }

  lemma DeltaIs<V>(f: Faults, latest: map<string, Item<V>>, ids: seq<string>, upserts: map<string, V>)
    requires forall sid :: sid in ids <==> sid in latest
    requires upserts == map sid | sid in Reaching(f, ids) :: latest[sid].meta
    ensures MetaDelta(upserts, {}) == UpsertDelta(f, latest) && (Reaching(f, ids) == [] ==> upserts == map[])
  {
  }

  lemma RemoveOne(m: map<string, seq<Turn>>, removed: seq<string>, sid: string)
    ensures (m - ToSet(removed)) - {sid} == m - ToSet(removed + [sid])
  {
    assert ToSet(removed + [sid]) == ToSet(removed) + {sid};
  }

  lemma OneMore(s: seq<string>, i: nat)
    requires i < |s|
    ensures s[..i + 1] == s[..i] + [s[i]] && s[..i + 1][..i] == s[..i]
  {
  }

  lemma NoneReached(f: Faults, ids: seq<string>, reached: seq<string>, failures: map<string, Fault>)
    requires Failures(f, ids, failures) && reached == []
    requires forall sid :: sid in reached <==> sid in ids && Written(f, sid)
    ensures AllFailures(f, ids, failures)
  {
    assert forall sid :: sid in ids ==> sid !in reached;
  }

  // ---------------------------------------------------------------- the cache

  lemma {:induction false} SansNone(list: seq<C.Entry>, none: set<string>)
    requires none == {}
    ensures Sans(list, none) == list
  {
    if list != [] { SansNone(list[1..], none); }
  }

  lemma {:induction false} SansTwice(list: seq<C.Entry>, a: set<string>, b: set<string>)
    ensures Sans(Sans(list, a), b) == Sans(list, a + b)
  {
    if list != [] {
      SansTwice(list[1..], a, b);
      if list[0].sid !in a {
        assert Sans(list, a) == [list[0]] + Sans(list[1..], a);
        assert Sans(list, a)[1..] == Sans(list[1..], a);
      } else {
        assert Sans(list, a) == Sans(list[1..], a);
      }
    }
  }

  lemma {:induction false} SansOneMore(
    now: seq<C.Entry>, list: seq<C.Entry>, done: set<string>, sid: string, more: set<string>)
    requires C.Distinct(now) && now == Sans(list, done) && more == done + {sid}
    ensures C.Without(now, sid) == Sans(list, more)
  {
    WithoutIsSans(now, sid);
    SansTwice(list, done, {sid});
  }

  lemma {:induction false} NotAmong(list: seq<C.Entry>, sid: string)
    requires forall i :: 0 <= i < |list| ==> list[i].sid != sid
    ensures Sans(list, {sid}) == list
  {
    if list != [] { NotAmong(list[1..], sid); }
  }

  lemma {:induction false} WithoutIsSans(list: seq<C.Entry>, sid: string)
    requires C.Distinct(list)
    ensures C.Without(list, sid) == Sans(list, {sid})
  {
    if list != [] {
      var rest := list[1..];
      if list[0].sid == sid {
        NotAmong(rest, sid);
        assert C.Without(list, sid) == rest;
      } else {
        WithoutIsSans(rest, sid);
        assert C.Find(list, sid) == 1 + C.Find(rest, sid);
        assert C.Without(list, sid) == [list[0]] + C.Without(rest, sid);
      }
    }
  }

  lemma {:induction false} ReachingMore(f: Faults, ids: seq<string>, sid: string)
    ensures Reaching(f, ids + [sid]) == if Written(f, sid) then Reaching(f, ids) + [sid] else Reaching(f, ids)
  {
    assert (ids + [sid])[..|ids|] == ids;
  }

  lemma EmptyMerge<V>(m: map<string, V>)
    ensures Merge(m, MetaDelta(map[], {})) == m
  {
  }

  lemma NoDelta<V>(f: Faults, latest: map<string, Item<V>>, m: map<string, V>)
    requires latest == map[]
    ensures Merge(m, UpsertDelta(f, latest)) == m
  {
    assert UpsertDelta(f, latest).upserts == map[];
  }

  lemma NoDeletes<V>(f: Faults, m: map<string, V>)
    ensures Merge(m, DeleteDelta(f, {})) == m
  {
    assert DeleteDelta<V>(f, {}).deletes == {};
  }

  predicate IsLast<V>(batch: seq<Item<V>>, sid: string, i: int) {
    0 <= i < |batch| && batch[i].sid == sid && forall j :: i < j < |batch| ==> batch[j].sid != sid
  }

  /** An id's outcome is nil exactly when its lock, its turns file and the meta commit
      all went through; otherwise it names the first of them that did not. */
  lemma OutcomeIs(f: Faults, sid: string)
    ensures Expected(f, sid) == None <==> f.locks(sid) && f.files(sid) && f.commit
    ensures Expected(f, sid) == Some(LockFailed) <==> !f.locks(sid)
    ensures Expected(f, sid) == Some(FileFailed) <==> f.locks(sid) && !f.files(sid)
    ensures Expected(f, sid) == Some(CommitFailed) <==> f.locks(sid) && f.files(sid) && !f.commit
  {
  }

  /** Ids that failed a phase leave the in-memory map as it was; the others take
      their last item's meta. */
  lemma {:induction false} OnlyPassingIdsChange<V>(f: Faults, batch: seq<Item<V>>, m: map<string, V>, sid: string)
    ensures var m' := After(f, m, UpsertDelta(f, Latest(batch)));
            if sid in Latest(batch) && Expected(f, sid) == None then sid in m' && m'[sid] == Latest(batch)[sid].meta
            else (sid in m' <==> sid in m) && (sid in m ==> m'[sid] == m[sid])
    ensures sid in Latest(batch) <==> exists i :: 0 <= i < |batch| && batch[i].sid == sid
    ensures forall i :: IsLast(batch, sid, i) ==> Latest(batch)[sid] == batch[i]
  {
    LatestIsLast(batch, sid);
  }

  lemma {:induction false} LatestIsLast<V>(batch: seq<Item<V>>, sid: string)
    ensures sid in Latest(batch) <==> exists i :: 0 <= i < |batch| && batch[i].sid == sid
    ensures forall i :: IsLast(batch, sid, i) ==> Latest(batch)[sid] == batch[i]
  {
    if sid in Latest(batch) { var i := LatestCameFrom(batch, sid); }
    forall i | 0 <= i < |batch| && batch[i].sid == sid
      ensures sid in Latest(batch) && (IsLast(batch, sid, i) ==> Latest(batch)[sid] == batch[i])
    {
      LatestHolds(batch, sid, i);
    }
  }

  lemma {:induction false} LatestCameFrom<V>(batch: seq<Item<V>>, sid: string) returns (i: nat)
    requires sid in Latest(batch)
    ensures i < |batch| && batch[i].sid == sid
  {
    i := |batch| - 1;
    if batch[i].sid != sid { i := LatestCameFrom(batch[..i], sid); }
  }

  lemma {:induction false} LatestHolds<V>(batch: seq<Item<V>>, sid: string, i: nat)
    requires i < |batch| && batch[i].sid == sid
    ensures sid in Latest(batch) && (IsLast(batch, sid, i) ==> Latest(batch)[sid] == batch[i])
  {
    if i < |batch| - 1 { LatestHolds(batch[..|batch| - 1], sid, i); }
  }
}
