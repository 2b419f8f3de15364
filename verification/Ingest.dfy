/** The parser of the normalized ingest surface
    (internal/conversations/ingest_parser.go): lines become verdicts, accepted
    records become items, and items are merged into sessions. */
module Ingest {
  import opened Prelude
  import opened Lines
  import opened Coverage
  import opened SessionIndexing
  import SessionParser

  // ----------------------------------------------------------------- records

  datatype Record = Record(
    schema: string, source: string, sessionId: string, title: string, turnIndex: Option<int>, role: string,
    timestamp: string, text: string, identity: string, stableId: string)

  const SCHEMA := "cogos.observatory.conversations/v0.1"
  const TURN := "session.turn"

  function RoleOf(role: string): Option<Role> {
    if role == "user" then Some(User)
    else if role == "assistant" then Some(Assistant)
    else if role == "tool" then Some(Tool)
    else if role == "system" then Some(System)
    else if role == "user-draft" then Some(UserDraft)
    else None
  }

  /** A loaded L1 ontology with its L2 mappings; an empty mapping reference means
      that no mapping speaks the source. */
  datatype Ontology = Ontology(ref: string, mappingRef: string -> string, degenerate: (string, string) -> bool)

  /** JSON decoding, timestamp parsing and hashing are parameters. `hash` gives the
      first 16 hexadecimal digits for a role, timestamp and text. */
  datatype Env = Env(
    decode: Bytes -> Option<Record>, parseTime: string -> Time, hash: (string, string, string) -> string,
    ontology: Option<Ontology>, maxTurnLen: nat)

  // ------------------------------------------------------------------ identity

  /** A dedup key with its internal namespace, "s:" or "h:". */
  datatype Key = Stable(id: string) | Hashed(id: string)

  /** `ingestRecordID`; the turn uuid is the key without its namespace. */
  function KeyOf(env: Env, rec: Record): Key {
    if rec.stableId != "" then Stable(rec.stableId) else Hashed(env.hash(rec.role, rec.timestamp, rec.text))
  }

  predicate IsHexDigit(c: char) { '0' <= c <= '9' || 'a' <= c <= 'f' }

  /** `isContentHashUUID`. */
  predicate IsContentHash(s: string) {
    |s| == 16 && forall i :: 0 <= i < 16 ==> IsHexDigit(s[i])
  }

  ghost predicate HashesAreHex(env: Env) {
    forall role, timestamp, text :: IsContentHash(env.hash(role, timestamp, text))
  }

  method IsContentHashUUID(s: string) returns (r: bool)
    ensures r == IsContentHash(s)
  {
    if |s| != 16 { return false; }
    for i := 0 to |s|
      invariant forall j :: 0 <= j < i ==> IsHexDigit(s[j])
    {
      if !IsHexDigit(s[i]) { return false; }
    }
    return true;
  }

  /** `ingestDedupKeysForTurn`. */
  function SeedKeys(t: Turn): set<Key> {
    if IsContentHash(t.uuid) then {Stable(t.uuid), Hashed(t.uuid)} else {Stable(t.uuid)}
  }

  function Seeded(turns: seq<Turn>): set<Key> {
    set t, k | t in turns && k in SeedKeys(t) :: k
  }

  /** `indexKeyForIngest`. */
  function IndexKey(source: string, sessionId: string): string { source + "/" + sessionId }

  // ------------------------------------------------------------------ verdicts

  /** An accepted record, ready to become a turn of session `key`. */
  datatype Item = Item(
    key: string, source: string, dedup: Key, index: Option<int>, role: Role, timestamp: Time, text: string,
    title: string, identity: string, ontology: string, mapping: string)

  datatype Verdict =
    | Ignored
    | UnknownSchema
    | Rejected
    | Quarantine(source: string, event: Event)
    | Accept(item: Item, counted: Option<Event>)

  predicate Incomplete(rec: Record) {
    rec.source == "" || rec.sessionId == "" || rec.role == "" || rec.timestamp == "" || rec.text == ""
  }

  function ItemOf(env: Env, rec: Record, role: Role, refs: Refs): Item {
    Item(IndexKey(rec.source, rec.sessionId), rec.source, KeyOf(env, rec), rec.turnIndex, role,
         env.parseTime(rec.timestamp), SessionParser.Truncate(rec.text, env.maxTurnLen), rec.title, rec.identity,
         refs.ontology, refs.mapping)
  }

  function Enforce(env: Env, rec: Record, role: Role): Verdict {
    match env.ontology
    case None => Accept(ItemOf(env, rec, role, Refs("", "")), None)
    case Some(ont) =>
      var refs := Refs(ont.ref, ont.mappingRef(rec.source));
      if refs.mapping == "" then Quarantine(rec.source, Quarantined(TURN, Some(refs)))
      else Accept(ItemOf(env, rec, role, refs),
                  Some(if ont.degenerate(rec.source, rec.role) then Degenerate(refs) else Mapped(refs)))
  }

  function Judge(env: Env, rec: Record): Verdict {
    if rec.schema != SCHEMA then UnknownSchema
    else if Incomplete(rec) then Rejected
    else match RoleOf(rec.role)
      case None => Rejected
      case Some(UserDraft) => Quarantine(rec.source, Quarantined(TURN, None))
      case Some(role) => Enforce(env, rec, role)
  }

  function Classify(env: Env, token: Bytes): Verdict {
    if token == [] then Ignored
    else match env.decode(token)
      case None => Ignored
      case Some(rec) => Judge(env, rec)
  }

  function ItemIn(v: Verdict): Option<Item> {
    if v.Accept? then Some(v.item) else None
  }

  /** How a verdict is counted for a source. */
  function EventIn(v: Verdict, source: string): Option<Event> {
    match v
    case Quarantine(s, event) => if s == source then Some(event) else None
    case Accept(item, counted) => if item.source == source then counted else None
    case _ => None
  }

  function Accepted(env: Env): Bytes -> Option<Item> {
    (token: Bytes) => ItemIn(Classify(env, token))
  }

  function CountedFor(env: Env, source: string): Bytes -> Option<Event> {
    (token: Bytes) => EventIn(Classify(env, token), source)
  }

  /** What the lines of data yield, in order. */
  function Picked<T>(pick: Bytes -> Option<T>, data: Bytes): seq<T>
    decreases |data|
  {
    if data == [] then []
    else First(pick(Token(data))) + Picked(pick, data[Advance(data)..])
  }

  function First<T>(o: Option<T>): seq<T> { if o.Some? then [o.value] else [] }

  function Items(env: Env, data: Bytes): seq<Item> { Picked(Accepted(env), data) }

  function Events(env: Env, source: string, data: Bytes): seq<Event> { Picked(CountedFor(env, source), data) }

  // ------------------------------------------------------------------ sessions

  /** One indexed session: its meta fields and turns. `session.size` and
      `session.mtime` are the aggregate stamp of the source for ingest sessions. */
  datatype Entry = Entry(source: string, identity: string, session: Indexed)

  type Index = map<string, Entry>

  datatype Accum = Accum(entry: Entry, seen: set<Key>, added: nat)

  function NewEntry(source: string): Entry {
    Entry(source, "", Indexed(SessionParser.NoHead, [], 0, 0, 0, 0, None))
  }

  /** A session the first time it is seen: from the index when it is there. */
  function Seed(existing: Index, key: string, source: string): Accum {
    if key in existing then Accum(existing[key], Seeded(existing[key].session.turns), 0)
    else Accum(NewEntry(source), {}, 0)
  }

  function TurnOf(item: Item, position: nat): Turn {
    Turn(item.dedup.id, item.key, if item.index.Some? then item.index.value else position, item.role, item.timestamp,
         item.text, false, "", TURN, item.ontology, item.mapping)
  }

  function AddTurn(e: Entry, item: Item): Entry {
    var h, n := e.session.head, |e.session.turns|;
    e.(identity := if item.identity != "" && e.identity == "" then item.identity else e.identity,
       session := e.session.(
         head := h.(bounds := SessionParser.Widen(h.bounds, item.timestamp),
                    title := if item.title != "" && h.title == "" then item.title else h.title),
         turns := e.session.turns + [TurnOf(item, n)],
         turnCount := n + 1))
  }

  function AddItem(s: Accum, item: Item): Accum {
    if item.dedup in s.seen then s
    else Accum(AddTurn(s.entry, item), s.seen + {item.dedup}, s.added + 1)
  }

  type Sessions = map<string, Accum>

  function Current(existing: Index, sessions: Sessions, item: Item): Accum {
    if item.key in sessions then sessions[item.key] else Seed(existing, item.key, item.source)
  }

  function AddTo(existing: Index, sessions: Sessions, item: Item): Sessions {
    sessions[item.key := AddItem(Current(existing, sessions, item), item)]
  }

  function AddAll(existing: Index, sessions: Sessions, items: seq<Item>): Sessions
    decreases |items|
  {
    if items == [] then sessions else AddAll(existing, AddTo(existing, sessions, items[0]), items[1..])
  }

  // --------------------------------------------------------------- ConsumeFile

  lemma {:induction false} CountFirst(c: SourceCoverage, e: Event, rest: seq<Event>)
    ensures CountAll(c, [e] + rest) == CountAll(Count(c, e), rest)
  {
    var all := [e] + rest;
    if rest == [] {
      assert all[..0] == [];
      assert CountAll(c, []) == c;
    } else {
      var front := rest[..|rest| - 1];
      assert all[..|all| - 1] == [e] + front;
      CountFirst(c, e, front);
    }
  }

  class Accumulator {
    const env: Env
    const existing: Index
    const coverage: CoverageTracker
    var sessions: Sessions
    var order: seq<string>

    /** The order lists each session once. */
    ghost predicate Valid()
      reads this
    {
      && ToSet(order) == sessions.Keys
      && forall i, j :: 0 <= i < j < |order| ==> order[i] != order[j]
    }

    constructor (env: Env, existing: Index, coverage: CoverageTracker)
      ensures this.env == env && this.existing == existing && this.coverage == coverage
      ensures Valid() && sessions == map[] && order == []
    {
      this.env, this.existing, this.coverage := env, existing, coverage;
      sessions, order := map[], [];
    }

    /** Every line of one file: sessions gain its accepted records, and each
        source's coverage gains its counted records. */
    method ConsumeFile(data: Bytes)
      requires Valid()
      modifies this, coverage
      ensures Valid() && old(order) <= order
      ensures sessions == AddAll(existing, old(sessions), Items(env, data))
      ensures forall s :: coverage.Of(s) == CountAll(old(coverage.Of(s)), Events(env, s, data))
    {
      var rest := data;
      while rest != []
        invariant Valid() && old(order) <= order
        invariant AddAll(existing, sessions, Items(env, rest)) == AddAll(existing, old(sessions), Items(env, data))
        invariant forall s :: CountAll(coverage.Of(s), Events(env, s, rest))
                           == CountAll(old(coverage.Of(s)), Events(env, s, data))
        decreases |rest|
      {
        var n, token := SessionParser.NextToken(rest);
        label before:
        ConsumeLine(token);
        UnfoldItems(env, existing, old@before(sessions), rest, token, n);
        forall s
          ensures CountAll(coverage.Of(s), Events(env, s, rest[n..])) == CountAll(old(coverage.Of(s)), Events(env, s, data))
        {
          UnfoldEvents(env, s, old@before(coverage.Of(s)), rest, token, n);
        }
        rest := rest[n..];
      }
    }

    method ConsumeLine(token: Bytes)
      requires Valid()
      modifies this, coverage
      ensures Valid() && old(order) <= order
      ensures sessions == AddPicked(existing, old(sessions), Accepted(env)(token))
      ensures forall s :: coverage.Of(s) == CountPicked(old(coverage.Of(s)), CountedFor(env, s)(token))
    {
      if token == [] { return; }
      var decoded := env.decode(token);
      if decoded.None? { return; }
      var rec := decoded.value;
      if rec.schema != SCHEMA { return; }
      if Incomplete(rec) { return; }
      var role := RoleOf(rec.role);
      if role.None? { return; }
      if role.value == UserDraft {
        RecordQuarantined(rec.source, None);
      } else {
        Admit(rec, role.value);
      }
    }

    method Admit(rec: Record, role: Role)
      requires Valid()
      modifies this, coverage
      ensures Valid() && old(order) <= order
      ensures sessions == AddPicked(existing, old(sessions), ItemIn(Enforce(env, rec, role)))
      ensures forall s :: coverage.Of(s) == CountPicked(old(coverage.Of(s)), EventIn(Enforce(env, rec, role), s))
    {
      if env.ontology.None? {
        AddRecord(ItemOf(env, rec, role, Refs("", "")));
      } else {
        EnforceOntology(rec, role, env.ontology.value);
      }
    }

    method EnforceOntology(rec: Record, role: Role, ont: Ontology)
      requires Valid() && env.ontology == Some(ont)
      modifies this, coverage
      ensures Valid() && old(order) <= order
      ensures sessions == AddPicked(existing, old(sessions), ItemIn(Enforce(env, rec, role)))
      ensures forall s :: coverage.Of(s) == CountPicked(old(coverage.Of(s)), EventIn(Enforce(env, rec, role), s))
    {
      var refs := Refs(ont.ref, ont.mappingRef(rec.source));
      if refs.mapping == "" {
        RecordQuarantined(rec.source, Some(refs));
      } else {
        RecordMapped(rec.source, ont.degenerate(rec.source, rec.role), refs);
        AddRecord(ItemOf(env, rec, role, refs));
      }
    }

    method RecordQuarantined(source: string, refs: Option<Refs>)
      modifies coverage
      ensures coverage.sources == old(coverage.sources)[source := Count(old(coverage.Of(source)), Quarantined(TURN, refs))]
    {
      coverage.RecordQuarantined(source, TURN);
      if refs.Some? { coverage.SetRefs(source, refs.value.ontology, refs.value.mapping); }
    }

    method RecordMapped(source: string, degenerate: bool, refs: Refs)
      modifies coverage
      ensures coverage.sources == old(coverage.sources)[
                source := Count(old(coverage.Of(source)), if degenerate then Degenerate(refs) else Mapped(refs))]
    {
      if degenerate {
        coverage.RecordDegenerate(source);
      } else {
        coverage.RecordMapped(source);
      }
      coverage.SetRefs(source, refs.ontology, refs.mapping);
    }

    method AddRecord(item: Item)
      requires Valid()
      modifies this
      ensures Valid() && old(order) <= order
      ensures sessions == AddTo(existing, old(sessions), item)
    {
      var s: Accum;
      if item.key in sessions {
        s := sessions[item.key];
      } else {
        s := Accum(NewEntry(item.source), {}, 0);
        if item.key in existing {
          var entry := existing[item.key];
          s := Accum(entry, Seeded(entry.session.turns), 0);
        }
        assert item.key !in order by { assert item.key !in ToSet(order); }
        order := order + [item.key];
      }
      if item.dedup !in s.seen {
        s := Accum(AddTurn(s.entry, item), s.seen + {item.dedup}, s.added + 1);
      }
      sessions := sessions[item.key := s];
    }
  }

  function AddPicked(existing: Index, sessions: Sessions, item: Option<Item>): Sessions {
    if item.Some? then AddTo(existing, sessions, item.value) else sessions
  }

  function CountPicked(c: SourceCoverage, e: Option<Event>): SourceCoverage {
    if e.Some? then Count(c, e.value) else c
  }

  lemma {:induction false} UnfoldItems(
    env: Env, existing: Index, sessions: Sessions, rest: Bytes, token: Bytes, n: nat)
    requires rest != [] && token == Token(rest) && n == Advance(rest)
    ensures AddAll(existing, sessions, Items(env, rest))
         == AddAll(existing, AddPicked(existing, sessions, Accepted(env)(token)), Items(env, rest[n..]))
  {
    var item := Accepted(env)(token);
    var tail := Items(env, rest[n..]);
    assert Items(env, rest) == First(item) + tail;
    if item.Some? {
      assert ([item.value] + tail)[1..] == tail;
    } else {
      assert [] + tail == tail;
    }
  }

  lemma {:induction false} UnfoldEvents(env: Env, s: string, c: SourceCoverage, rest: Bytes, token: Bytes, n: nat)
    requires rest != [] && token == Token(rest) && n == Advance(rest)
    ensures CountAll(c, Events(env, s, rest))
         == CountAll(CountPicked(c, CountedFor(env, s)(token)), Events(env, s, rest[n..]))
  {
    var e := CountedFor(env, s)(token);
    var tail := Events(env, s, rest[n..]);
    assert Events(env, s, rest) == First(e) + tail;
    if e.Some? { CountFirst(c, e.value, tail); } else { assert [] + tail == tail; }
  }
}
