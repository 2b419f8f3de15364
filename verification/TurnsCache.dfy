/** The bounded turns cache (internal/conversations/turns_cache.go): a recency
    list, an index over it, a byte counter, and per-session generations. */
module TurnsCache {
  import opened Prelude

  // ---------------------------------------------------------------- values

  /** `turnsEstimateBytes`: string payload plus a fixed 160 bytes per turn. */
  function TurnBytes(t: Turn): (n: nat)
    ensures n >= 160
  {
    |t.text| + |t.uuid| + |t.sessionId| + |t.parentUuid| + |t.component|
    + |t.ontologyVersion| + |t.mappingVersion| + RoleLength(t.role) + 160
  }

  function RoleLength(r: Role): nat {
    match r
    case User => 4
    case Assistant => 9
    case System => 6
    case Tool => 4
    case UserDraft => 10
  }

  function EstimateBytes(turns: seq<Turn>): nat {
    if turns == [] then 0 else EstimateBytes(turns[..|turns| - 1]) + TurnBytes(turns[|turns| - 1])
  }

  /** Everything a turn carries as text. */
  function Payload(t: Turn): string {
    t.uuid + t.sessionId + RoleName(t.role) + t.text + t.parentUuid + t.component + t.ontologyVersion + t.mappingVersion
  }

  function RoleName(r: Role): string {
    match r
    case User => "user"
    case Assistant => "assistant"
    case System => "system"
    case Tool => "tool"
    case UserDraft => "user-draft"
  }

  function Payloads(turns: seq<Turn>): string {
    if turns == [] then "" else Payloads(turns[..|turns| - 1]) + Payload(turns[|turns| - 1])
  }

  /** The estimate is the length of all text the turns carry plus 160 bytes each. */
  lemma {:induction false} EstimateIsPayload(turns: seq<Turn>)
    ensures EstimateBytes(turns) == |Payloads(turns)| + 160 * |turns|
  {
    if turns != [] { EstimateIsPayload(turns[..|turns| - 1]); }
  }

  datatype Entry = Entry(sid: string, turns: seq<Turn>, size: nat)
  datatype Limits = Limits(maxEntries: nat, maxBytes: nat)

  /** Generation counters. `serial` only grows; sessions not touched since the
      last clear report `epoch`. */
  datatype Gens = Gens(serial: nat, touched: map<string, nat>, epoch: nat) {
    function Of(sid: string): nat {
      if sid in touched then touched[sid] else epoch
    }
    function Bump(sid: string): Gens {
      Gens(serial + 1, touched[sid := serial + 1], epoch)
    }
    function BumpAll(): Gens {
      Gens(serial + 1, map[], serial + 1)
    }
    ghost predicate Valid() {
      && epoch <= serial
      && forall sid :: sid in touched ==> touched[sid] <= serial
    }
  }

  /** Front of `order` is the most recently used entry. */
  datatype Cache = Cache(order: seq<Entry>, gens: Gens)

  function TotalBytes(order: seq<Entry>): nat {
    if order == [] then 0 else TotalBytes(order[..|order| - 1]) + order[|order| - 1].size
  }

  predicate Fits(lim: Limits, order: seq<Entry>) {
    |order| <= lim.maxEntries && TotalBytes(order) <= lim.maxBytes
  }

  /** Position of sid's entry, or |order| when it has none. */
  function Find(order: seq<Entry>, sid: string): (i: nat)
    ensures i <= |order|
    ensures i < |order| ==> order[i].sid == sid
    ensures forall j :: 0 <= j < i ==> order[j].sid != sid
  {
    if order == [] then 0 else if order[0].sid == sid then 0 else 1 + Find(order[1..], sid)
  }

  function Without(order: seq<Entry>, sid: string): seq<Entry> {
    var i := Find(order, sid);
    if i == |order| then order else order[..i] + order[i + 1..]
  }

  /** Eviction from the back until both bounds hold. */
  function Evicted(lim: Limits, order: seq<Entry>): seq<Entry> {
    if order == [] || Fits(lim, order) then order else Evicted(lim, order[..|order| - 1])
  }

  function Store(lim: Limits, order: seq<Entry>, sid: string, turns: seq<Turn>): seq<Entry> {
    var rest := Without(order, sid);
    var size := EstimateBytes(turns);
    if size > lim.maxBytes / 4 then rest
    else Evicted(lim, [Entry(sid, turns, size)] + rest)
  }

  function Touch(order: seq<Entry>, sid: string): seq<Entry> {
    var i := Find(order, sid);
    if i == |order| then order else [order[i]] + Without(order, sid)
  }

  datatype Op =
    | Get(sid: string)
    | Put(sid: string, turns: seq<Turn>)
    | PutIfGen(sid: string, turns: seq<Turn>, g: nat)
    | Invalidate(sid: string)
    | Clear

  function Apply(lim: Limits, c: Cache, op: Op): Cache {
    match op
    case Get(sid) => c.(order := Touch(c.order, sid))
    case Put(sid, turns) => Cache(Store(lim, c.order, sid, turns), c.gens.Bump(sid))
    case PutIfGen(sid, turns, g) =>
      if c.gens.Of(sid) == g then c.(order := Store(lim, c.order, sid, turns)) else c
    case Invalidate(sid) => Cache(Without(c.order, sid), c.gens.Bump(sid))
    case Clear => Cache([], c.gens.BumpAll())
  }

  function Run(lim: Limits, c: Cache, ops: seq<Op>): Cache {
    if ops == [] then c else Apply(lim, Run(lim, c, ops[..|ops| - 1]), ops[|ops| - 1])
  }

  const EmptyCache := Cache([], Gens(0, map[], 0))

  // ------------------------------------------------------------ invariants

  ghost predicate Distinct(order: seq<Entry>) {
    forall i, j :: 0 <= i < j < |order| ==> order[i].sid != order[j].sid
  }

  ghost predicate Sized(order: seq<Entry>) {
    forall i :: 0 <= i < |order| ==> order[i].size == EstimateBytes(order[i].turns)
  }

  ghost predicate Inv(lim: Limits, c: Cache) {
    Distinct(c.order) && Sized(c.order) && Fits(lim, c.order) && c.gens.Valid()
  }

  lemma {:induction false} TotalBytesSplit(a: seq<Entry>, b: seq<Entry>)
    ensures TotalBytes(a + b) == TotalBytes(a) + TotalBytes(b)
  {
    if b == [] {
      assert a + b == a;
    } else {
      TotalBytesSplit(a, b[..|b| - 1]);
      assert (a + b)[..|a + b| - 1] == a + b[..|b| - 1];
    }
  }

  lemma {:induction false} WithoutMembers(order: seq<Entry>, sid: string)
    requires Distinct(order)
    ensures Distinct(Without(order, sid))
    ensures forall e :: e in Without(order, sid) <==> e in order && e.sid != sid
  {
    var i, w := Find(order, sid), Without(order, sid);
    if i < |order| {
      assert |w| == |order| - 1;
      assert forall j :: 0 <= j < |w| ==> w[j] == order[if j < i then j else j + 1];
      forall e ensures e in w <==> e in order && e.sid != sid {
        if e in order && e.sid != sid {
          var j :| 0 <= j < |order| && order[j] == e;
          assert e == w[if j < i then j else j - 1];
        }
      }
    }
  }

  /** Removing an entry frees exactly its bytes. */
  lemma {:induction false} WithoutFrees(order: seq<Entry>, sid: string)
    ensures Find(order, sid) == |order| ==> Without(order, sid) == order
    ensures var i := Find(order, sid);
            i < |order| ==> TotalBytes(Without(order, sid)) + order[i].size == TotalBytes(order)
  {
    var i := Find(order, sid);
    if i < |order| {
      var front, back := order[..i], order[i + 1..];
      assert order == front + ([order[i]] + back);
      TotalBytesSplit(front, [order[i]] + back);
      TotalBytesSplit([order[i]], back);
      TotalBytesSplit(front, back);
      OneEntryBytes(order[i]);
    }
  }

  lemma {:induction false} OneEntryBytes(e: Entry)
    ensures TotalBytes([e]) == e.size
  {
    assert [e][..0] == [];
  }

  /** Eviction keeps the longest recency prefix within both bounds: the result
      is a prefix, it fits, and every longer prefix breaks a bound. */
  lemma {:induction false} EvictedIsLongestFittingPrefix(lim: Limits, order: seq<Entry>)
    ensures Evicted(lim, order) <= order
    ensures Fits(lim, Evicted(lim, order))
    ensures forall n :: |Evicted(lim, order)| < n <= |order| ==> !Fits(lim, order[..n])
  {
    if order != [] && !Fits(lim, order) {
      var front := order[..|order| - 1];
      EvictedIsLongestFittingPrefix(lim, front);
      forall n | |Evicted(lim, order)| < n <= |order| ensures !Fits(lim, order[..n]) {
        if n == |order| {
          assert order[..n] == order;
        } else {
          assert order[..n] == front[..n];
        }
      }
    }
  }

  lemma {:induction false} WithoutKeepsInvariant(lim: Limits, c: Cache, sid: string)
    requires Inv(lim, c)
    ensures Inv(lim, c.(order := Without(c.order, sid)))
  {
    WithoutFrees(c.order, sid);
    WithoutMembers(c.order, sid);
    var rest := Without(c.order, sid);
    forall i | 0 <= i < |rest| ensures rest[i].size == EstimateBytes(rest[i].turns) {
      assert rest[i] in c.order;
    }
  }

  lemma {:induction false} PushKeepsOrder(order: seq<Entry>, e: Entry)
    requires Distinct(order) && Sized(order)
    requires forall x :: x in order ==> x.sid != e.sid
    requires e.size == EstimateBytes(e.turns)
    ensures Distinct([e] + order) && Sized([e] + order)
  {
    var all := [e] + order;
    forall i, j | 0 <= i < j < |all| ensures all[i].sid != all[j].sid {
      assert all[j] == order[j - 1] && order[j - 1] in order;
    }
  }

  lemma {:induction false} StoreKeepsInvariant(lim: Limits, c: Cache, sid: string, turns: seq<Turn>)
    requires Inv(lim, c)
    ensures Inv(lim, c.(order := Store(lim, c.order, sid, turns)))
  {
    WithoutKeepsInvariant(lim, c, sid);
    WithoutMembers(c.order, sid);
    EvictionKeepsInvariant(lim, c.(order := Without(c.order, sid)), Entry(sid, turns, EstimateBytes(turns)));
  }

  lemma {:induction false} EvictionKeepsInvariant(lim: Limits, c: Cache, e: Entry)
    requires Inv(lim, c) && e.size == EstimateBytes(e.turns) && forall x :: x in c.order ==> x.sid != e.sid
    ensures Inv(lim, c.(order := Evicted(lim, [e] + c.order)))
  {
    PushKeepsOrder(c.order, e);
    EvictedIsLongestFittingPrefix(lim, [e] + c.order);
  }

  lemma {:induction false} TouchKeepsInvariant(lim: Limits, c: Cache, sid: string)
    requires Inv(lim, c)
    ensures Inv(lim, c.(order := Touch(c.order, sid)))
    ensures forall e :: e in Touch(c.order, sid) <==> e in c.order
    ensures TotalBytes(Touch(c.order, sid)) == TotalBytes(c.order)
  {
    var i := Find(c.order, sid);
    if i < |c.order| {
      var e, rest := c.order[i], Without(c.order, sid);
      WithoutFrees(c.order, sid);
      WithoutMembers(c.order, sid);
      WithoutKeepsInvariant(lim, c, sid);
      PushKeepsOrder(rest, e);
      TotalBytesSplit([e], rest);
      OneEntryBytes(e);
      forall x ensures x in [e] + rest <==> x in c.order {
        if x in c.order && x.sid == sid {
          var j :| 0 <= j < |c.order| && c.order[j] == x;
          assert j == i;
        }
      }
    }
  }

  lemma {:induction false} ApplyKeepsInvariant(lim: Limits, c: Cache, op: Op)
    requires Inv(lim, c)
    ensures Inv(lim, Apply(lim, c, op))
  {
    match op
    case Get(sid) => TouchKeepsInvariant(lim, c, sid);
    case Put(sid, turns) => StoreKeepsInvariant(lim, c, sid, turns);
    case PutIfGen(sid, turns, g) => StoreKeepsInvariant(lim, c, sid, turns);
    case Invalidate(sid) => WithoutKeepsInvariant(lim, c, sid);
    case Clear =>
  }

  /** Both bounds, distinct sessions and exact sizes hold after every operation
      of every run. */
  lemma {:induction false} EveryRunKeepsInvariant(lim: Limits, ops: seq<Op>)
    ensures Inv(lim, Run(lim, EmptyCache, ops))
  {
    if ops != [] {
      EveryRunKeepsInvariant(lim, ops[..|ops| - 1]);
      ApplyKeepsInvariant(lim, Run(lim, EmptyCache, ops[..|ops| - 1]), ops[|ops| - 1]);
    }
  }

  /** An entry within the size limit survives its own eviction pass, in front. */
  lemma {:induction false} StoredEntrySurvives(lim: Limits, c: Cache, sid: string, turns: seq<Turn>)
    requires lim.maxEntries >= 1 && EstimateBytes(turns) <= lim.maxBytes / 4
    ensures var order := Store(lim, c.order, sid, turns);
            order != [] && order[0] == Entry(sid, turns, EstimateBytes(turns))
  {
    var e := Entry(sid, turns, EstimateBytes(turns));
    var all := [e] + Without(c.order, sid);
    EvictedIsLongestFittingPrefix(lim, all);
    OneEntryBytes(e);
    assert all[..1] == [e];
    assert Fits(lim, all[..1]);
  }

  /** Turns beyond a quarter of the byte bound are not kept, nor is what was cached
      for their session before. */
  lemma {:induction false} OversizedIsNotKept(lim: Limits, c: Cache, sid: string, turns: seq<Turn>)
    requires Inv(lim, c) && 4 * EstimateBytes(turns) > lim.maxBytes + 3
    ensures forall e :: e in Store(lim, c.order, sid, turns) ==> e.sid != sid && e in c.order
  {
    WithoutMembers(c.order, sid);
  }

  // ------------------------------------------------------- least recently used

  /** The operation makes sid the most recently used session, if it is cached. */
  predicate Uses(c: Cache, op: Op, sid: string) {
    match op
    case Get(s) => s == sid
    case Put(s, _) => s == sid
    case PutIfGen(s, _, g) => s == sid && c.gens.Of(sid) == g
    case _ => false
  }

  /** The position of the last operation that used the session, from one; zero if
      there was none. */
  function LastUse(lim: Limits, ops: seq<Op>, sid: string): (n: nat)
    ensures n <= |ops|
  {
    if ops == [] then 0
    else
      var before := ops[..|ops| - 1];
      if Uses(Run(lim, EmptyCache, before), ops[|ops| - 1], sid) then |ops| else LastUse(lim, before, sid)
  }

  ghost predicate ByRecency(lim: Limits, ops: seq<Op>, order: seq<Entry>) {
    forall i, j :: 0 <= i < j < |order| ==> LastUse(lim, ops, order[i].sid) > LastUse(lim, ops, order[j].sid)
  }

  /** After every operation sequence the cached sessions are listed by their last use,
      the most recent first: what eviction drops from the back is what was used
      longest ago. */
  lemma {:induction false} ListedByLastUse(lim: Limits, ops: seq<Op>)
    ensures ByRecency(lim, ops, Run(lim, EmptyCache, ops).order)
  {
    if ops != [] {
      var before, op := ops[..|ops| - 1], ops[|ops| - 1];
      var c := Run(lim, EmptyCache, before);
      ListedByLastUse(lim, before);
      EveryRunKeepsInvariant(lim, before);
      match op
      case Get(sid) => TouchByRecency(lim, ops, before, c, sid);
      case Put(sid, turns) => StoreByRecency(lim, ops, before, c, sid, turns);
      case PutIfGen(sid, turns, g) =>
        if c.gens.Of(sid) == g { StoreByRecency(lim, ops, before, c, sid, turns); }
      case Invalidate(sid) => WithoutByRecency(lim, before, c.order, sid);
      case Clear =>
    }
  }

  lemma {:induction false} WithoutByRecency(lim: Limits, ops: seq<Op>, order: seq<Entry>, sid: string)
    requires ByRecency(lim, ops, order)
    ensures ByRecency(lim, ops, Without(order, sid))
  {
    var i, w := Find(order, sid), Without(order, sid);
    if i < |order| { assert forall j :: 0 <= j < |w| ==> w[j] == order[if j < i then j else j + 1]; }
  }

  /** A session just used goes before the others, whose last uses stay. */
  lemma {:induction false} FrontByRecency(lim: Limits, ops: seq<Op>, before: seq<Op>, e: Entry, rest: seq<Entry>)
    requires ops != [] && before == ops[..|ops| - 1] && ByRecency(lim, before, rest)
    requires Uses(Run(lim, EmptyCache, before), ops[|ops| - 1], e.sid)
    requires forall x :: x in rest ==> x.sid != e.sid && !Uses(Run(lim, EmptyCache, before), ops[|ops| - 1], x.sid)
    ensures ByRecency(lim, ops, [e] + rest)
  {
    var all := [e] + rest;
    assert forall i :: 0 <= i < |rest| ==> rest[i] in rest && LastUse(lim, ops, rest[i].sid) == LastUse(lim, before, rest[i].sid);
    forall i, j | 0 <= i < j < |all| ensures LastUse(lim, ops, all[i].sid) > LastUse(lim, ops, all[j].sid) {
      assert all[j] == rest[j - 1];
      if i > 0 { assert all[i] == rest[i - 1]; }
    }
  }

  lemma {:induction false} TouchByRecency(lim: Limits, ops: seq<Op>, before: seq<Op>, c: Cache, sid: string)
    requires ops != [] && before == ops[..|ops| - 1] && ops[|ops| - 1] == Get(sid)
    requires c == Run(lim, EmptyCache, before) && Inv(lim, c) && ByRecency(lim, before, c.order)
    ensures ByRecency(lim, ops, Touch(c.order, sid))
  {
    var i := Find(c.order, sid);
    if i < |c.order| {
      WithoutMembers(c.order, sid);
      WithoutByRecency(lim, before, c.order, sid);
      FrontByRecency(lim, ops, before, c.order[i], Without(c.order, sid));
    } else {
      assert forall j :: 0 <= j < |c.order| ==> LastUse(lim, ops, c.order[j].sid) == LastUse(lim, before, c.order[j].sid);
    }
  }

  lemma {:induction false} StoreByRecency(lim: Limits, ops: seq<Op>, before: seq<Op>, c: Cache, sid: string, turns: seq<Turn>)
    requires ops != [] && before == ops[..|ops| - 1] && c == Run(lim, EmptyCache, before)
    requires Inv(lim, c) && ByRecency(lim, before, c.order)
    requires var op := ops[|ops| - 1];
             op == Put(sid, turns) || (op.PutIfGen? && op.sid == sid && c.gens.Of(sid) == op.g)
    ensures ByRecency(lim, ops, Store(lim, c.order, sid, turns))
  {
    var e := Entry(sid, turns, EstimateBytes(turns));
    var rest := Without(c.order, sid);
    StoredInFront(lim, ops, before, c, e);
    if e.size > lim.maxBytes / 4 {
      SliceByRecency(lim, ops, [e] + rest, 1, |rest| + 1);
      assert ([e] + rest)[1..|rest| + 1] == rest;
    } else {
      EvictedIsLongestFittingPrefix(lim, [e] + rest);
      SliceByRecency(lim, ops, [e] + rest, 0, |Evicted(lim, [e] + rest)|);
    }
  }

  lemma {:induction false} StoredInFront(lim: Limits, ops: seq<Op>, before: seq<Op>, c: Cache, e: Entry)
    requires ops != [] && before == ops[..|ops| - 1] && c == Run(lim, EmptyCache, before)
    requires Inv(lim, c) && ByRecency(lim, before, c.order)
    requires Uses(c, ops[|ops| - 1], e.sid)
    requires forall x :: x in c.order && x.sid != e.sid ==> !Uses(c, ops[|ops| - 1], x.sid)
    ensures ByRecency(lim, ops, [e] + Without(c.order, e.sid))
  {
    WithoutMembers(c.order, e.sid);
    WithoutByRecency(lim, before, c.order, e.sid);
    FrontByRecency(lim, ops, before, e, Without(c.order, e.sid));
  }

  lemma {:induction false} SliceByRecency(lim: Limits, ops: seq<Op>, order: seq<Entry>, lo: nat, hi: nat)
    requires ByRecency(lim, ops, order) && lo <= hi <= |order|
    ensures ByRecency(lim, ops, order[lo..hi])
  {
    var part := order[lo..hi];
    forall i, j | 0 <= i < j < |part| ensures LastUse(lim, ops, part[i].sid) > LastUse(lim, ops, part[j].sid) {
      assert part[i] == order[lo + i] && part[j] == order[lo + j];
    }
  }

  // ------------------------------------- refinement of an unbounded map cache

  /** The simple cache the LRU stands for: a map that never evicts. */
  datatype MapCache = MapCache(turns: map<string, seq<Turn>>, gens: Gens)

  function ApplyMap(c: MapCache, op: Op): MapCache {
    match op
    case Get(_) => c
    case Put(sid, turns) => MapCache(c.turns[sid := turns], c.gens.Bump(sid))
    case PutIfGen(sid, turns, g) =>
      if c.gens.Of(sid) == g then c.(turns := c.turns[sid := turns]) else c
    case Invalidate(sid) => MapCache(c.turns - {sid}, c.gens.Bump(sid))
    case Clear => MapCache(map[], c.gens.BumpAll())
  }

  function RunMap(c: MapCache, ops: seq<Op>): MapCache {
    if ops == [] then c else ApplyMap(RunMap(c, ops[..|ops| - 1]), ops[|ops| - 1])
  }

  /** Every cached entry is one the map cache would also serve. */
  ghost predicate Serves(c: Cache, m: MapCache) {
    && c.gens == m.gens
    && forall e :: e in c.order ==> e.sid in m.turns && m.turns[e.sid] == e.turns
  }

  lemma {:induction false} StoreServes(lim: Limits, c: Cache, m: MapCache, sid: string, turns: seq<Turn>)
    requires Inv(lim, c) && Serves(c, m)
    ensures forall e :: e in Store(lim, c.order, sid, turns) ==>
              e.sid in m.turns[sid := turns] && m.turns[sid := turns][e.sid] == e.turns
  {
    WithoutMembers(c.order, sid);
    EvictedIsLongestFittingPrefix(lim, [Entry(sid, turns, EstimateBytes(turns))] + Without(c.order, sid));
  }

  /** For every operation sequence, a hit in the bounded cache returns exactly
      the turns the unbounded map cache holds, and both report the same
      generations: eviction is the only difference. */
  lemma {:induction false} CacheRefinesMap(lim: Limits, ops: seq<Op>)
    ensures Serves(Run(lim, EmptyCache, ops), RunMap(MapCache(map[], EmptyCache.gens), ops))
  {
    if ops != [] {
      var before := ops[..|ops| - 1];
      CacheRefinesMap(lim, before);
      EveryRunKeepsInvariant(lim, before);
      var c, m := Run(lim, EmptyCache, before), RunMap(MapCache(map[], EmptyCache.gens), before);
      match ops[|ops| - 1]
      case Get(sid) => TouchKeepsInvariant(lim, c, sid);
      case Put(sid, turns) => StoreServes(lim, c, m, sid, turns);
      case PutIfGen(sid, turns, g) => StoreServes(lim, c, m, sid, turns);
      case Invalidate(sid) => WithoutMembers(c.order, sid);
      case Clear =>
    }
  }

  // ------------------------------------------------------------ generations

  predicate Supersedes(op: Op, sid: string) {
    match op
    case Put(s, _) => s == sid
    case Invalidate(s) => s == sid
    case Clear => true
    case _ => false
  }

  /** A session's generation never decreases, and every put, invalidate or
      clear strictly increases it. */
  lemma {:induction false} GenerationsGrow(lim: Limits, c: Cache, ops: seq<Op>, sid: string)
    requires c.gens.Valid()
    ensures Run(lim, c, ops).gens.Valid()
    ensures Run(lim, c, ops).gens.Of(sid) >= c.gens.Of(sid)
    ensures (exists op :: op in ops && Supersedes(op, sid)) ==> Run(lim, c, ops).gens.Of(sid) > c.gens.Of(sid)
  {
    if ops != [] {
      var before, last := ops[..|ops| - 1], ops[|ops| - 1];
      GenerationsGrow(lim, c, before, sid);
      GenerationStep(lim, Run(lim, c, before), last, sid);
      assert ops == before + [last];
      assert forall op :: op in ops ==> op in before || op == last;
    }
  }

  lemma GenerationStep(lim: Limits, c: Cache, op: Op, sid: string)
    requires c.gens.Valid()
    ensures var now := Apply(lim, c, op).gens;
            now.Valid() && now.Of(sid) >= c.gens.Of(sid) && (Supersedes(op, sid) ==> now.Of(sid) > c.gens.Of(sid))
  {
  }

  /** A disk read begun before a put, invalidate or clear of its session is
      rejected, whatever else ran in between. */
  lemma StaleReadIsRejected(lim: Limits, c: Cache, ops: seq<Op>, sid: string, turns: seq<Turn>)
    requires c.gens.Valid()
    requires exists op :: op in ops && Supersedes(op, sid)
    ensures var now := Run(lim, c, ops);
            Apply(lim, now, PutIfGen(sid, turns, c.gens.Of(sid))) == now
  {
    GenerationsGrow(lim, c, ops, sid);
  }

  // ------------------------------------------------------- the cache object

  /** `items` points each session at its entry in the list, and nothing else. */
  ghost predicate Indexes(items: map<string, Entry>, order: seq<Entry>) {
    && (forall e :: e in order ==> e.sid in items && items[e.sid] == e)
    && (forall sid :: sid in items ==> items[sid] in order && items[sid].sid == sid)
  }

  lemma StaysDistinct(order: seq<Entry>, e: Entry)
    requires Distinct(order) && forall x :: x in order ==> x.sid != e.sid
    ensures Distinct([e] + order)
  {
    assert forall i :: 0 <= i < |order| ==> order[i] in order;
  }

  lemma {:induction false} IndexesPush(items: map<string, Entry>, order: seq<Entry>, e: Entry)
    requires Indexes(items, order) && forall x :: x in order ==> x.sid != e.sid
    ensures Indexes(items[e.sid := e], [e] + order)
  {
  }

  lemma {:induction false} IndexesWithout(items: map<string, Entry>, order: seq<Entry>, sid: string)
    requires Indexes(items, order) && Distinct(order)
    ensures Indexes(items - {sid}, Without(order, sid))
    ensures sid in items ==> Find(order, sid) < |order| && order[Find(order, sid)] == items[sid]
  {
    WithoutMembers(order, sid);
    if sid in items {
      var j :| 0 <= j < |order| && order[j] == items[sid];
      FoundAt(order, j);
    }
  }

  lemma {:induction false} Removal(lim: Limits, c: Cache, items: map<string, Entry>, sid: string)
    requires Inv(lim, c) && Indexes(items, c.order) && sid in items
    ensures Inv(lim, Cache(Without(c.order, sid), c.gens)) && Indexes(items - {sid}, Without(c.order, sid))
    ensures TotalBytes(Without(c.order, sid)) == TotalBytes(c.order) - items[sid].size
  {
    IndexesWithout(items, c.order, sid);
    WithoutFrees(c.order, sid);
    WithoutKeepsInvariant(lim, c, sid);
  }

  lemma {:induction false} IndexesPop(items: map<string, Entry>, order: seq<Entry>)
    requires Indexes(items, order) && Distinct(order) && order != []
    ensures Indexes(items - {order[|order| - 1].sid}, order[..|order| - 1])
  {
    var front, back := order[..|order| - 1], order[|order| - 1];
    assert order == front + [back];
    forall i | 0 <= i < |front| ensures front[i].sid != back.sid {
      assert order[i] == front[i];
    }
    assert forall e :: e in order <==> e in front || e == back;
  }

  class BoundedCache {
    const limits: Limits
    var list: seq<Entry>
    var items: map<string, Entry>
    var bytes: int
    var serial: nat
    var gens: map<string, nat>
    var epoch: nat

    /** The index agrees with the list and the byte counter is the sum of the
        entry sizes. */
    ghost predicate Valid()
      reads this
    {
      && Inv(limits, Value())
      && bytes == TotalBytes(list)
      && Indexes(items, list)
    }

    ghost function Value(): Cache
      reads this
    {
      Cache(list, Gens(serial, gens, epoch))
    }

    constructor (lim: Limits)
      ensures Valid() && Value() == EmptyCache && limits == lim
    {
      limits := lim;
      list, items, bytes := [], map[], 0;
      serial, gens, epoch := 0, map[], 0;
    }

    method Gen(sid: string) returns (g: nat)
      ensures g == Value().gens.Of(sid)
    {
      if sid in gens { g := gens[sid]; } else { g := epoch; }
    }

    method Lookup(sid: string) returns (hit: Option<seq<Turn>>)
      requires Valid()
      modifies this
      ensures Valid() && Value() == Apply(limits, old(Value()), Get(sid))
      ensures hit.None? <==> forall e :: e in old(list) ==> e.sid != sid
      ensures hit.Some? ==> exists e :: e in old(list) && e.sid == sid && e.turns == hit.value
    {
      if sid !in items { NotFound(list, sid); return None; }
      var e := items[sid];
      TouchKeepsInvariant(limits, Value(), sid);
      var at := Position(list, sid);
      IndexesWithout(items, list, sid);
      list := [e] + (list[..at] + list[at + 1..]);
      return Some(e.turns);
    }

    method Insert(sid: string, turns: seq<Turn>)
      requires Valid()
      modifies this
      ensures Valid() && Value() == Apply(limits, old(Value()), Put(sid, turns))
    {
      serial := serial + 1;
      gens := gens[sid := serial];
      StoreLocked(sid, turns);
    }

    method InsertIfGen(sid: string, turns: seq<Turn>, g: nat)
      requires Valid()
      modifies this
      ensures Valid() && Value() == Apply(limits, old(Value()), PutIfGen(sid, turns, g))
    {
      var now := Gen(sid);
      if now != g { return; }
      StoreLocked(sid, turns);
    }

    method Drop(sid: string)
      requires Valid()
      modifies this
      ensures Valid() && Value() == Apply(limits, old(Value()), Invalidate(sid))
    {
      serial := serial + 1;
      gens := gens[sid := serial];
      RemoveLocked(sid);
    }

    method Reset()
      requires Valid()
      modifies this
      ensures Valid() && Value() == Apply(limits, old(Value()), Clear)
    {
      serial := serial + 1;
      epoch := serial;
      gens := map[];
      list, items, bytes := [], map[], 0;
    }

    method RemoveLocked(sid: string)
      requires Valid()
      modifies this`list, this`items, this`bytes
      ensures Valid() && list == Without(old(list), sid)
    {
      if sid !in items { NotFound(list, sid); return; }
      RemoveKnown(sid);
    }

    method RemoveKnown(sid: string)
      requires Valid() && sid in items
      modifies this`list, this`items, this`bytes
      ensures Valid() && list == Without(old(list), sid)
    {
      var e := items[sid];
      Removal(limits, Value(), items, sid);
      list := Unlinked(list, sid);
      items := items - {sid};
      bytes := bytes - e.size;
    }

    static method Unlinked(order: seq<Entry>, sid: string) returns (shorter: seq<Entry>)
      ensures shorter == Without(order, sid)
    {
      var at := Position(order, sid);
      shorter := if at == |order| then order else order[..at] + order[at + 1..];
    }

    /** The list search `container/list` avoids by holding the element. */
    static method Position(order: seq<Entry>, sid: string) returns (i: nat)
      ensures i == Find(order, sid)
    {
      i := 0;
      while i < |order| && order[i].sid != sid
        invariant i <= |order|
        invariant forall j :: 0 <= j < i ==> order[j].sid != sid
      {
        i := i + 1;
      }
    }

    method StoreLocked(sid: string, turns: seq<Turn>)
      requires Valid()
      modifies this`list, this`items, this`bytes
      ensures Valid() && list == Store(limits, old(list), sid, turns)
    {
      WithoutMembers(list, sid);
      RemoveLocked(sid);
      var size := Estimate(turns);
      if size > limits.maxBytes / 4 { return; }
      AddFront(Entry(sid, turns, size));
    }

    method AddFront(e: Entry)
      requires Valid() && e.size == EstimateBytes(e.turns) && forall x :: x in list ==> x.sid != e.sid
      modifies this`list, this`items, this`bytes
      ensures Valid() && list == Evicted(limits, [e] + old(list))
    {
      ghost var after := Cache(Evicted(limits, [e] + list), Gens(serial, gens, epoch));
      assert Inv(limits, after) by { EvictionKeepsInvariant(limits, Value(), e); }
      PushFront(e);
      EvictLocked();
      assert Value() == after;
    }

    method PushFront(e: Entry)
      requires Distinct(list) && bytes == TotalBytes(list) && Indexes(items, list) && forall x :: x in list ==> x.sid != e.sid
      modifies this`list, this`items, this`bytes
      ensures list == [e] + old(list) && Distinct(list) && bytes == TotalBytes(list) && Indexes(items, list)
    {
      StaysDistinct(list, e);
      IndexesPush(items, list, e);
      TotalBytesSplit([e], list);
      OneEntryBytes(e);
      list := [e] + list;
      items := items[e.sid := e];
      bytes := bytes + e.size;
    }

    method EvictLocked()
      requires Distinct(list) && bytes == TotalBytes(list) && Indexes(items, list)
      modifies this`list, this`items, this`bytes
      ensures list == Evicted(limits, old(list))
      ensures bytes == TotalBytes(list) && Indexes(items, list)
    {
      while |list| > limits.maxEntries || bytes > limits.maxBytes
        invariant Distinct(list) && bytes == TotalBytes(list) && Indexes(items, list)
        invariant Evicted(limits, list) == Evicted(limits, old(list))
        decreases |list|
      {
        // The list is not empty here: an empty one is within both bounds.
        var back := list[|list| - 1];
        IndexesPop(items, list);
        list := list[..|list| - 1];
        items := items - {back.sid};
        bytes := bytes - back.size;
      }
    }

    static method Estimate(turns: seq<Turn>) returns (n: nat)
      ensures n == EstimateBytes(turns)
    {
      n := 0;
      for i := 0 to |turns|
        invariant n == EstimateBytes(turns[..i])
      {
        assert turns[..i + 1][..i] == turns[..i];
        n := n + TurnBytes(turns[i]);
      }
      assert turns[..|turns|] == turns;
    }
  }

  lemma NotFound(order: seq<Entry>, sid: string)
    requires forall e :: e in order ==> e.sid != sid
    ensures Find(order, sid) == |order|
  {
    if Find(order, sid) < |order| { assert order[Find(order, sid)] in order; }
  }

  lemma FoundAt(order: seq<Entry>, i: nat)
    requires Distinct(order) && i < |order|
    ensures Find(order, order[i].sid) == i
  {
  }
}
