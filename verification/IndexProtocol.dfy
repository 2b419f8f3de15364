/** Several index instances sharing one projection directory
    (internal/conversations/index.go), as a transition system.

    Every critical section and every file operation of a batch, a load or a
    turns read is one action, so actions of different instances, and of the
    loaders and readers inside one instance, interleave freely.

    A rewrite of a session's turns file draws a fresh version, and the meta
    entry written by the same call carries that version: this is the stamp
    `IndexedAt` the callers of UpsertSessions must advance. Removing a turns
    file draws a version too, so "older" is well defined for it. */
module IndexProtocol {
  import opened Prelude
  import opened MetaMerge
  import TurnsCache

  type Sid = string
  type Pid = nat
  type Ver = nat
  type Metas = map<Sid, Ver>

  /** A turns file; `present` is false once the file was removed. */
  datatype TurnFile = TurnFile(ver: Ver, present: bool)

  /** What the instances share. `base`, `log`, `open` and `broken` are history:
      the initial meta file, the committed deltas in meta-lock order, the
      sessions whose turns file is ahead of their meta entry inside a running
      batch, and those left so by a failed meta commit or a crash. */
  datatype Disk = Disk(
    metas: Metas,
    mtime: Time,
    turns: map<Sid, TurnFile>,
    locks: map<Sid, Pid>,
    metaLock: Option<Pid>,
    clock: nat,
    base: Metas,
    log: seq<MetaDelta<Ver>>,
    open: set<Sid>,
    broken: set<Sid>)

  datatype Phase =
    | Idle
    | Locking(next: nat)       // ids[next] is being acquired
    | WritingTurns(next: nat)  // ids[next] is being written or removed
    | WantMeta
    | HasMeta
    | Merging(read: Metas)     // the meta file was read for the merge
    | Renamed(merged: Metas)   // new meta file in place, meta lock held
    | Compared(equal: bool, merged: Metas) // merged == expected was evaluated
    | Booked                   // meta lock released, memory commit pending
    | Releasing

  /** One UpsertSessions or DeleteSessions call. `done` maps each session whose
      turns file this call rewrote to the version it wrote. */
  datatype Writer = Writer(phase: Phase, upsert: bool, ids: seq<Sid>, held: set<Sid>, done: Metas)

  /** A Load between its file operations. `readAt` is history: how many deltas had
      been committed when it read the file. */
  datatype Loader = Statted(mtime: Time) | Loaded(mtime: Time, content: Metas, readAt: nat)

  datatype ReadPhase =
    | Entered
    | Checked
    | Missed
    | GotGen(g: nat)
    | GotTurns(g: nat, ver: Ver)
    | GotError(g: nat)

  datatype Reader = Reader(sid: Sid, attempt: nat, phase: ReadPhase)

  /** One index instance. `stampMtime` and `stampHash` are the bookkeeping of
      LoadIfChanged (the hash is injective, so the content stands for it).
      `dropped` is history: sessions a failed turns read removed from memory. */
  datatype Proc = Proc(
    sessions: Metas,
    stampMtime: Time,
    stampHash: Metas,
    cache: map<Sid, Ver>,
    gens: TurnsCache.Gens,
    writer: Writer,
    loaders: map<nat, Loader>,
    readers: map<nat, Reader>,
    dropped: set<Sid>)

  datatype World = World(disk: Disk, procs: map<Pid, Proc>)

  const NoBatch := Writer(Idle, true, [], {}, map[])
  const FreshProc :=
    Proc(map[], 0, map[], map[], TurnsCache.Gens(0, map[], 0), NoBatch, map[], map[], {})

  datatype Action =
    // UpsertSessions / DeleteSessions
    | StartBatch(upsert: bool, ids: seq<Sid>)
    | LockId
    | SkipId
    | BeginTurns
    | WriteTurns
    | SkipTurns
    | EndTurns
    | LockMeta
    | FailMeta
    | ReadMeta
    | Rename
    | Compare
    | Book
    | CommitMemory(order: seq<Sid>)
    | ReleaseId(sid: Sid)
    | EndBatch
    // Load
    | StatLoad(l: nat)
    | ReadLoad(l: nat)
    | SwapLoad(l: nat, order: seq<Sid>)
    // turnsForSession
    | BeginRead(r: nat, sid: Sid)
    | CheckIndexed(r: nat)
    | LookCache(r: nat)
    | CaptureGen(r: nat)
    | ReadTurns(r: nat)
    | ReadFails(r: nat)
    | FinishRead(r: nat, insert: bool)
    | FinishError(r: nat)
    // the LRU, and the process dying
    | Evict(sid: Sid)
    | Crash

  // ------------------------------------------------------------- vocabulary

  predicate HoldsMeta(ph: Phase) { ph.HasMeta? || ph.Merging? || ph.Renamed? || ph.Compared? }
  predicate BeforeRename(ph: Phase) { ph.WritingTurns? || ph.WantMeta? || ph.HasMeta? || ph.Merging? }
  predicate AfterRename(ph: Phase) { ph.Renamed? || ph.Compared? || ph.Booked? }

  function DeltaOf(wr: Writer): MetaDelta<Ver> {
    if wr.upsert then MetaDelta(wr.done, {}) else MetaDelta(map[], wr.done.Keys)
  }

  function FileVer(d: Disk, sid: Sid): Ver {
    if sid in d.turns then d.turns[sid].ver else 0
  }

  function BumpEach(g: TurnsCache.Gens, order: seq<Sid>): TurnsCache.Gens {
    if order == [] then g else BumpEach(g, order[..|order| - 1]).Bump(order[|order| - 1])
  }

  // ---------------------------------------------------------------- actions

  predicate Enabled(d: Disk, p: Pid, x: Proc, a: Action) {
    var wr := x.writer;
    match a
    case StartBatch(_, ids) => wr.phase.Idle? && ids != [] && Increasing(ids)
    case LockId => wr.phase.Locking? && wr.phase.next < |wr.ids| && wr.ids[wr.phase.next] !in d.locks
    case SkipId => wr.phase.Locking? && wr.phase.next < |wr.ids|
    case BeginTurns => wr.phase.Locking? && wr.phase.next == |wr.ids|
    case WriteTurns => wr.phase.WritingTurns? && wr.phase.next < |wr.ids| && wr.ids[wr.phase.next] in wr.held
    case SkipTurns => wr.phase.WritingTurns? && wr.phase.next < |wr.ids|
    case EndTurns => wr.phase.WritingTurns? && wr.phase.next == |wr.ids|
    case LockMeta => wr.phase.WantMeta? && d.metaLock.None?
    case FailMeta => wr.phase.WantMeta? || wr.phase.HasMeta? || wr.phase.Merging?
    case ReadMeta => wr.phase.HasMeta?
    case Rename => wr.phase.Merging?
    case Compare => wr.phase.Renamed?
    case Book => wr.phase.Compared?
    case CommitMemory(order) => wr.phase.Booked? && ToSet(order) == wr.done.Keys
    case ReleaseId(sid) => wr.phase.Releasing? && sid in wr.held
    case EndBatch => wr.phase.Releasing? && wr.held == {}
    case StatLoad(l) => l !in x.loaders
    case ReadLoad(l) => l in x.loaders && x.loaders[l].Statted?
    case SwapLoad(l, order) =>
      l in x.loaders && x.loaders[l].Loaded? && ToSet(order) == Changed(x.sessions, x.loaders[l].content)
    case BeginRead(r, sid) => r !in x.readers
    case CheckIndexed(r) => r in x.readers && x.readers[r].phase.Entered?
    case LookCache(r) => r in x.readers && x.readers[r].phase.Checked?
    case CaptureGen(r) => r in x.readers && x.readers[r].phase.Missed?
    case ReadTurns(r) => r in x.readers && x.readers[r].phase.GotGen?
    case ReadFails(r) => r in x.readers && x.readers[r].phase.GotGen?
    case FinishRead(r, _) => r in x.readers && x.readers[r].phase.GotTurns?
    case FinishError(r) => r in x.readers && x.readers[r].phase.GotError?
    case Evict(sid) => sid in x.cache
    case Crash => true
  }

  function NextDisk(d: Disk, p: Pid, x: Proc, a: Action): Disk
    requires Enabled(d, p, x, a)
  {
    var wr := x.writer;
    match a
    case LockId => d.(locks := d.locks[wr.ids[wr.phase.next] := p])
    case WriteTurns =>
      var sid := wr.ids[wr.phase.next];
      d.(turns := d.turns[sid := TurnFile(d.clock, wr.upsert)], clock := d.clock + 1, open := d.open + {sid})
    case LockMeta => d.(metaLock := Some(p))
    case FailMeta =>
      d.(metaLock := if wr.phase.WantMeta? then d.metaLock else None,
         open := d.open - wr.done.Keys, broken := d.broken + wr.done.Keys)
    case Rename =>
      d.(metas := Merge(wr.phase.read, DeltaOf(wr)), mtime := d.clock, clock := d.clock + 1,
         log := d.log + [DeltaOf(wr)], open := d.open - wr.done.Keys, broken := d.broken - wr.done.Keys)
    case Book => d.(metaLock := None)
    case ReleaseId(sid) => d.(locks := d.locks - {sid})
    case Crash =>
      d.(locks := d.locks - wr.held,
         metaLock := if HoldsMeta(wr.phase) then None else d.metaLock,
         open := d.open - wr.held, broken := d.broken + d.open * wr.held)
    case _ => d
  }

  function NextWriter(d: Disk, p: Pid, x: Proc, a: Action): Writer
    requires Enabled(d, p, x, a)
  {
    var wr := x.writer;
    match a
    case StartBatch(upsert, ids) => Writer(Locking(0), upsert, ids, {}, map[])
    case LockId => wr.(phase := Locking(wr.phase.next + 1), held := wr.held + {wr.ids[wr.phase.next]})
    case SkipId => wr.(phase := Locking(wr.phase.next + 1))
    case BeginTurns => wr.(phase := WritingTurns(0))
    case WriteTurns =>
      wr.(phase := WritingTurns(wr.phase.next + 1), done := wr.done[wr.ids[wr.phase.next] := d.clock])
    case SkipTurns => wr.(phase := WritingTurns(wr.phase.next + 1))
    case EndTurns => wr.(phase := if wr.done == map[] then Releasing else WantMeta)
    case LockMeta => wr.(phase := HasMeta)
    case FailMeta => wr.(phase := Releasing, done := map[])
    case ReadMeta => wr.(phase := Merging(d.metas))
    case Rename => wr.(phase := Renamed(Merge(wr.phase.read, DeltaOf(wr))))
    case Compare => wr.(phase := Compared(wr.phase.merged == Merge(x.sessions, DeltaOf(wr)), wr.phase.merged))
    case Book => wr.(phase := Booked)
    case CommitMemory(_) => wr.(phase := Releasing, done := map[])
    case ReleaseId(sid) => wr.(held := wr.held - {sid})
    case EndBatch => NoBatch
    case Crash => NoBatch
    case _ => wr
  }

  predicate ReaderAction(a: Action) {
    a.BeginRead? || a.CheckIndexed? || a.LookCache? || a.CaptureGen? || a.ReadTurns? || a.ReadFails?
    || a.FinishRead? || a.FinishError?
  }

  /** The steps of turnsForSession. */
  function NextReader(d: Disk, p: Pid, x: Proc, a: Action): Proc
    requires Enabled(d, p, x, a) && ReaderAction(a)
  {
    match a
    case BeginRead(r, sid) => x.(readers := x.readers[r := Reader(sid, 0, Entered)])
    case CheckIndexed(r) =>
      if x.readers[r].sid in x.sessions then SetPhase(x, r, Checked) else x.(readers := x.readers - {r})
    case LookCache(r) =>
      if x.readers[r].sid in x.cache then x.(readers := x.readers - {r}) else SetPhase(x, r, Missed)
    case CaptureGen(r) => SetPhase(x, r, GotGen(x.gens.Of(x.readers[r].sid)))
    case ReadTurns(r) => SetPhase(x, r, GotTurns(x.readers[r].phase.g, FileVer(d, x.readers[r].sid)))
    case ReadFails(r) => SetPhase(x, r, GotError(x.readers[r].phase.g))
    case FinishRead(r, insert) =>
      var rd := x.readers[r];
      var current := x.gens.Of(rd.sid) == rd.phase.g;
      if rd.attempt == 0 && !current then x.(readers := x.readers[r := Reader(rd.sid, 1, Entered)])
      else x.(readers := x.readers - {r},
              cache := if insert && current then x.cache[rd.sid := rd.phase.ver] else x.cache)
    case FinishError(r) =>
      var rd := x.readers[r];
      if x.gens.Of(rd.sid) == rd.phase.g then
        x.(readers := x.readers - {r}, sessions := x.sessions - {rd.sid},
           dropped := if rd.sid in x.sessions then x.dropped + {rd.sid} else x.dropped)
      else if rd.attempt == 0 then x.(readers := x.readers[r := Reader(rd.sid, 1, Entered)])
      else x.(readers := x.readers - {r})
  }

  function NextProc(d: Disk, p: Pid, x: Proc, a: Action): Proc
    requires Enabled(d, p, x, a)
  {
    if ReaderAction(a) then NextReader(d, p, x, a) else
    var wr := x.writer;
    var y := x.(writer := NextWriter(d, p, x, a));
    match a
    case Book => if wr.phase.equal then y.(stampMtime := d.mtime, stampHash := wr.phase.merged) else y
    case CommitMemory(order) =>
      y.(sessions := Merge(x.sessions, DeltaOf(wr)),
         cache := if wr.upsert then x.cache + wr.done else x.cache - wr.done.Keys,
         gens := BumpEach(x.gens, order),
         dropped := x.dropped - wr.done.Keys)
    case StatLoad(l) => y.(loaders := x.loaders[l := Statted(d.mtime)])
    case ReadLoad(l) => y.(loaders := x.loaders[l := Loaded(x.loaders[l].mtime, d.metas, |d.log|)])
    case SwapLoad(l, order) =>
      var ld := x.loaders[l];
      y.(sessions := ld.content, stampMtime := ld.mtime, stampHash := ld.content,
         cache := if x.sessions == map[] then map[] else x.cache - ToSet(order),
         gens := if x.sessions == map[] then x.gens.BumpAll() else BumpEach(x.gens, order),
         loaders := x.loaders - {l}, dropped := {})
    case Evict(sid) => y.(cache := x.cache - {sid})
    case Crash => FreshProc
    case _ => y
  }

  function SetPhase(x: Proc, r: nat, ph: ReadPhase): Proc
    requires r in x.readers
  {
    x.(readers := x.readers[r := x.readers[r].(phase := ph)])
  }

  predicate CanStep(w: World, p: Pid, a: Action) {
    p in w.procs && Enabled(w.disk, p, w.procs[p], a)
  }

  function Step(w: World, p: Pid, a: Action): World
    requires CanStep(w, p, a)
  {
    World(NextDisk(w.disk, p, w.procs[p], a), w.procs[p := NextProc(w.disk, p, w.procs[p], a)])
  }

  /** A run: each element is one instance taking one action. */
  ghost predicate Runs(w: World, steps: seq<(Pid, Action)>, w': World)
    decreases |steps|
  {
    if steps == [] then w' == w
    else CanStep(w, steps[0].0, steps[0].1) && Runs(Step(w, steps[0].0, steps[0].1), steps[1..], w')
  }

  /** Any number of just-opened instances over any consistent directory. */
  ghost predicate Init(w: World) {
    var d := w.disk;
    && 0 < d.mtime < d.clock
    && d.base == d.metas && d.log == []
    && d.locks == map[] && d.metaLock == None && d.open == {} && d.broken == {}
    && (forall sid :: sid in d.turns ==> d.turns[sid].ver < d.clock)
    && (forall sid :: Paired(d, sid))
    && (forall p :: p in w.procs ==> w.procs[p] == FreshProc)
  }

  /** The meta entry and the turns file were written by the same call, and one
      exists exactly when the other does. */
  ghost predicate Paired(d: Disk, sid: Sid) {
    && (sid in d.metas <==> sid in d.turns && d.turns[sid].present)
    && (sid in d.metas ==> d.metas[sid] == d.turns[sid].ver)
  }

  // ------------------------------------------------------ the fast-path test

  /** LoadIfChanged skips the reload. */
  predicate FastPath(d: Disk, x: Proc) {
    x.stampMtime == d.mtime && x.stampHash == d.metas
  }

  /** The delta already in the meta file that memory has yet to apply. */
  function Pending(x: Proc): MetaDelta<Ver> {
    if AfterRename(x.writer.phase) then DeltaOf(x.writer) else MetaDelta(map[], {})
  }

  /** Memory plus the pending delta equals the file, up to sessions a failed
      turns read removed from memory. */
  ghost predicate InMemoryMatches(d: Disk, x: Proc) {
    Merge(x.sessions, Pending(x)) == d.metas - (x.dropped - Pending(x).Keys())
  }

  /** The writer is between an equal comparison and its bookkeeping. */
  predicate Trusting(ph: Phase) { ph.Compared? && ph.equal }

  /** What the load has missed since it read does not matter: every session outside
      the running batch that a later delta named was absent when the load read,
      and the last delta naming it deleted it. */
  ghost predicate MissedNothing(d: Disk, ld: Loader, mine: set<Sid>)
    requires ld.Loaded?
  {
    forall sid :: sid !in mine && LastNaming(d.log, sid) >= ld.readAt ==>
      sid !in ld.content && sid in d.log[LastNaming(d.log, sid)].deletes
  }

  /** A load may swap at any time, except that inside the window between a
      writer's comparison and its bookkeeping it must have missed nothing. */
  ghost predicate TimelySwap(d: Disk, x: Proc, a: Action) {
    a.SwapLoad? && a.l in x.loaders && x.loaders[a.l].Loaded? && Trusting(x.writer.phase) ==>
      MissedNothing(d, x.loaders[a.l], x.writer.done.Keys)
  }

  ghost predicate RunsTimely(w: World, steps: seq<(Pid, Action)>, w': World)
    decreases |steps|
  {
    if steps == [] then w' == w
    else
      && CanStep(w, steps[0].0, steps[0].1)
      && TimelySwap(w.disk, w.procs[steps[0].0], steps[0].1)
      && RunsTimely(Step(w, steps[0].0, steps[0].1), steps[1..], w')
  }

  // ------------------------------------------------------------- wait-for

  datatype Lock = OfSession(sid: Sid) | OfMeta

  /** The lock an instance is blocked on, if any. */
  function Wanted(x: Proc): Option<Lock> {
    var wr := x.writer;
    if wr.phase.Locking? && wr.phase.next < |wr.ids| then Some(OfSession(wr.ids[wr.phase.next]))
    else if wr.phase.WantMeta? then Some(OfMeta)
    else None
  }

  predicate Owns(d: Disk, p: Pid, k: Lock) {
    match k
    case OfSession(sid) => sid in d.locks && d.locks[sid] == p
    case OfMeta => d.metaLock == Some(p)
  }

  predicate WaitsFor(w: World, p: Pid, q: Pid) {
    p in w.procs && q in w.procs && Wanted(w.procs[p]).Some? && Owns(w.disk, q, Wanted(w.procs[p]).value)
  }
}
