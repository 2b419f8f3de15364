/** Independent descriptions of what the two parsers produce: which records become
    turns, in which order, and where titles and identities come from. */
module References {
  import opened Prelude
  import opened Lines
  import opened Coverage
  import P = SessionParser
  import I = Ingest
  import D = IngestDelta
  import S = IngestSessions

  // ------------------------------------------------------------- vocabulary

  /** ns lists, in increasing order, exactly the positions below n that satisfy p. */
  ghost predicate Lists(ns: seq<nat>, n: nat, p: nat -> bool) {
    && (forall a, b :: 0 <= a < b < |ns| ==> ns[a] < ns[b])
    && (forall a :: 0 <= a < |ns| ==> ns[a] < n && p(ns[a]))
    && (forall i :: 0 <= i < n && p(i) ==> i in ns)
  }

  /** One more position, with p unchanged below it. */
  lemma {:induction false} ListsMore(ns: seq<nat>, n: nat, p: nat -> bool, q: nat -> bool)
    requires Lists(ns, n, p) && forall i :: 0 <= i < n ==> (p(i) <==> q(i))
    ensures Lists(if q(n) then ns + [n] else ns, n + 1, q)
  {
    var ms := if q(n) then ns + [n] else ns;
    forall i | 0 <= i < n + 1 && q(i) ensures i in ms {
      if i < n { assert p(i) && i in ns; }
    }
  }

  /** Short texts whole, longer ones cut at maxLen characters and marked. */
  predicate Clipped(text: string, maxLen: nat, clipped: string) {
    if |text| <= maxLen then clipped == text else clipped == text[..maxLen] + " [truncated]"
  }

  function FirstNonEmpty(texts: seq<string>): string {
    if texts == [] then "" else
    var before := FirstNonEmpty(texts[..|texts| - 1]);
    if before != "" then before else texts[|texts| - 1]
  }

  /** The first non-empty text, and empty only if all are. */
  lemma {:induction false} FirstNonEmptyIs(texts: seq<string>)
    ensures FirstNonEmpty(texts) == "" ==> forall i :: 0 <= i < |texts| ==> texts[i] == ""
    ensures FirstNonEmpty(texts) != "" ==>
              exists i :: 0 <= i < |texts| && texts[i] == FirstNonEmpty(texts) && forall j :: 0 <= j < i ==> texts[j] == ""
  {
    if texts != [] {
      var front := texts[..|texts| - 1];
      FirstNonEmptyIs(front);
      assert forall i :: 0 <= i < |front| ==> front[i] == texts[i];
      if FirstNonEmpty(front) != "" {
        var i :| 0 <= i < |front| && front[i] == FirstNonEmpty(front) && forall j :: 0 <= j < i ==> front[j] == "";
        assert texts[i] == FirstNonEmpty(texts);
      } else if FirstNonEmpty(texts) != "" {
        assert texts[|texts| - 1] == FirstNonEmpty(texts);
      }
    }
  }

  // ---------------------------------------------------------- ingest sessions

  /** The first record of session k with its dedup key. */
  predicate IsFirst(items: seq<I.Item>, k: string, i: nat) {
    i < |items| && items[i].key == k && forall j :: 0 <= j < i && items[j].key == k ==> items[j].dedup != items[i].dedup
  }

  function Firsts(items: seq<I.Item>, k: string): nat -> bool { (i: nat) => IsFirst(items, k, i) }

  ghost predicate FromFirsts(items: seq<I.Item>, k: string, s: I.Accum, ns: seq<nat>) {
    && Lists(ns, |items|, Firsts(items, k))
    && TurnsFrom(items, ns, s.entry.session.turns)
    && s.entry.session.head.title == FirstNonEmpty(Titles(items, ns))
    && s.entry.identity == FirstNonEmpty(Identities(items, ns))
    && SeenIs(items, k, s.seen)
  }

  ghost predicate TurnsFrom(items: seq<I.Item>, ns: seq<nat>, turns: seq<Turn>) {
    |turns| == |ns| && forall m :: 0 <= m < |ns| ==> ns[m] < |items| && turns[m] == I.TurnOf(items[ns[m]], m)
  }

  ghost predicate SeenIs(items: seq<I.Item>, k: string, seen: set<I.Key>) {
    forall key :: key in seen <==> exists i :: 0 <= i < |items| && items[i].key == k && items[i].dedup == key
  }

  function Titles(items: seq<I.Item>, ns: seq<nat>): seq<string> {
    seq(|ns|, m requires 0 <= m < |ns| => if ns[m] < |items| then items[ns[m]].title else "")
  }

  function Identities(items: seq<I.Item>, ns: seq<nat>): seq<string> {
    seq(|ns|, m requires 0 <= m < |ns| => if ns[m] < |items| then items[ns[m]].identity else "")
  }

  /** The turns of a session built from scratch are exactly its records that are
      first with their dedup key, in order, numbered by position unless the record
      says otherwise; title and identity are the first non-empty ones among them. */
  lemma {:induction false} SessionIsFirstItems(items: seq<I.Item>, k: string, source: string) returns (ns: seq<nat>)
    ensures FromFirsts(items, k, S.Whole(items, k, source), ns)
  {
    if items == [] {
      ns := [];
    } else {
      var front, item := items[..|items| - 1], items[|items| - 1];
      var ms := SessionIsFirstItems(front, k, source);
      assert items == front + [item];
      OneMoreItem(front, k, source, item);
      ns := FirstsGrow(front, k, S.Whole(front, k, source), item, ms);
    }
  }

  lemma {:induction false} OneMoreItem(front: seq<I.Item>, k: string, source: string, item: I.Item)
    ensures S.Whole(front + [item], k, source)
         == if item.key == k then I.AddItem(S.Whole(front, k, source), item) else S.Whole(front, k, source)
  {
    var start := I.Accum(I.NewEntry(source), {}, 0);
    S.GrownOfMore(start, k, front, [item]);
    assert [item][1..] == [];
    var s := S.Whole(front, k, source);
    assert S.Grown(s, k, [item]) == S.Grown(if item.key == k then I.AddItem(s, item) else s, k, [item][1..]);
  }

  lemma {:induction false} FirstsGrow(front: seq<I.Item>, k: string, s: I.Accum, item: I.Item, ms: seq<nat>)
    returns (ns: seq<nat>)
    requires FromFirsts(front, k, s, ms)
    ensures FromFirsts(front + [item], k, if item.key == k then I.AddItem(s, item) else s, ns)
  {
    NewIsFirst(front, k, s.seen, item);
    if item.key == k && item.dedup !in s.seen {
      ns := ms + [|front|];
      FirstAdds(front, k, s, item, ms);
    } else {
      ns := ms;
      RepeatStays(front, k, s, item, ms);
    }
  }

  lemma {:induction false} FirstAdds(front: seq<I.Item>, k: string, s: I.Accum, item: I.Item, ms: seq<nat>)
    requires FromFirsts(front, k, s, ms) && item.key == k && item.dedup !in s.seen
    requires IsFirst(front + [item], k, |front|)
    ensures FromFirsts(front + [item], k, I.AddItem(s, item), ms + [|front|])
  {
    SameFirsts(front, k, item);
    ListsMore(ms, |front|, Firsts(front, k), Firsts(front + [item], k));
    SeenGrows(front, k, s, item);
    TextsGrow(front, item, ms);
    TurnsGrow(front, item, ms, s);
    AddedFields(s, item);
  }

  lemma {:induction false} RepeatStays(front: seq<I.Item>, k: string, s: I.Accum, item: I.Item, ms: seq<nat>)
    requires FromFirsts(front, k, s, ms) && (item.key != k || item.dedup in s.seen)
    requires !IsFirst(front + [item], k, |front|)
    ensures FromFirsts(front + [item], k, s, ms)
  {
    SameFirsts(front, k, item);
    ListsMore(ms, |front|, Firsts(front, k), Firsts(front + [item], k));
    SeenGrows(front, k, s, item);
    TextsGrow(front, item, ms);
    TurnsGrow(front, item, ms, s);
    if item.key == k { assert s.seen + {item.dedup} == s.seen; }
  }

  lemma AddedFields(s: I.Accum, item: I.Item)
    ensures var s' := I.AddItem(s, item);
            if item.dedup in s.seen then s' == s
            else
              && s'.entry.session.turns == I.AddTurn(s.entry, item).session.turns && s'.seen == s.seen + {item.dedup}
              && s'.entry.session.head.title == (if s.entry.session.head.title != "" then s.entry.session.head.title else item.title)
              && s'.entry.identity == (if s.entry.identity != "" then s.entry.identity else item.identity)
  {
  }

  lemma {:induction false} TurnsGrow(front: seq<I.Item>, item: I.Item, ms: seq<nat>, s: I.Accum)
    requires TurnsFrom(front, ms, s.entry.session.turns)
    ensures TurnsFrom(front + [item], ms, s.entry.session.turns)
    ensures TurnsFrom(front + [item], ms + [|front|], I.AddTurn(s.entry, item).session.turns)
  {
    var items := front + [item];
    assert items[|front|] == item && forall i :: 0 <= i < |front| ==> items[i] == front[i];
  }

  lemma NewIsFirst(front: seq<I.Item>, k: string, seen: set<I.Key>, item: I.Item)
    requires SeenIs(front, k, seen)
    ensures IsFirst(front + [item], k, |front|) <==> item.key == k && item.dedup !in seen
  {
    var items := front + [item];
    assert items[|front|] == item;
    assert forall i :: 0 <= i < |front| ==> items[i] == front[i];
  }

  lemma SameFirsts(front: seq<I.Item>, k: string, item: I.Item)
    ensures forall i: nat :: i < |front| ==> (IsFirst(front, k, i) <==> IsFirst(front + [item], k, i))
  {
    var items := front + [item];
    assert forall i :: 0 <= i < |front| ==> items[i] == front[i];
  }

  lemma SeenGrows(front: seq<I.Item>, k: string, s: I.Accum, item: I.Item)
    requires SeenIs(front, k, s.seen)
    ensures SeenIs(front + [item], k, if item.key == k then s.seen + {item.dedup} else s.seen)
  {
    var seen, items := if item.key == k then s.seen + {item.dedup} else s.seen, front + [item];
    assert items[|front|] == item;
    forall key ensures key in seen <==> exists i :: 0 <= i < |items| && items[i].key == k && items[i].dedup == key {
      if key in s.seen {
        var i :| 0 <= i < |front| && front[i].key == k && front[i].dedup == key;
        assert items[i] == front[i];
      }
      if i :| 0 <= i < |items| && items[i].key == k && items[i].dedup == key {
        if i < |front| { assert front[i] == items[i]; }
      }
    }
  }

  lemma TextsGrow(front: seq<I.Item>, item: I.Item, ms: seq<nat>)
    requires forall a :: 0 <= a < |ms| ==> ms[a] < |front|
    ensures var items, ns := front + [item], ms + [|front|];
            && Titles(items, ms) == Titles(front, ms) && Identities(items, ms) == Identities(front, ms)
            && FirstNonEmpty(Titles(items, ns)) ==
                 (if FirstNonEmpty(Titles(front, ms)) != "" then FirstNonEmpty(Titles(front, ms)) else item.title)
            && FirstNonEmpty(Identities(items, ns)) ==
                 (if FirstNonEmpty(Identities(front, ms)) != "" then FirstNonEmpty(Identities(front, ms)) else item.identity)
  {
    var items, ns := front + [item], ms + [|front|];
    assert Titles(items, ns)[..|ms|] == Titles(front, ms);
    assert Identities(items, ns)[..|ms|] == Identities(front, ms);
  }

  // ------------------------------------------------------------ ingest verdicts

  /** A record becomes a turn exactly when its schema is known, no required field is
      empty, its role is a speaking one, and some mapping speaks its source if an
      ontology is enforced. */
  lemma AcceptedIff(env: I.Env, rec: I.Record)
    ensures I.Judge(env, rec).Accept? <==> Speaks(env, rec)
  {
  }

  /** A well-formed record is quarantined exactly when it is a draft or no mapping
      speaks its source, and only ontology enforcement counts accepted ones. */
  lemma CountedIff(env: I.Env, rec: I.Record)
    ensures I.Judge(env, rec).Quarantine? <==>
            && rec.schema == I.SCHEMA && "" !in {rec.source, rec.sessionId, rec.timestamp, rec.text}
            && (rec.role == "user-draft" ||
                (rec.role in {"user", "assistant", "tool", "system"}
                 && env.ontology.Some? && env.ontology.value.mappingRef(rec.source) == ""))
    ensures I.EventIn(I.Judge(env, rec), rec.source).Some? <==>
            I.Judge(env, rec).Quarantine? || (I.Judge(env, rec).Accept? && env.ontology.Some?)
  {
  }

  /** What an observer must fill in for a record to be counted at all. */
  predicate WellFormed(rec: I.Record) {
    && rec.schema == I.SCHEMA && "" !in {rec.source, rec.sessionId, rec.timestamp, rec.text}
    && rec.role in {"user", "assistant", "tool", "system", "user-draft"}
  }

  /** A draft, or a record of a source no mapping speaks. */
  predicate Held(ont: I.Ontology, rec: I.Record) { rec.role == "user-draft" || ont.mappingRef(rec.source) == "" }

  /** The well-formed records of a source in one file, held back or not. */
  function Named(env: I.Env, source: string, ont: I.Ontology, held: bool): Bytes -> Option<I.Record> {
    (token: Bytes) =>
      var rec := if token == [] then None else env.decode(token);
      if rec.Some? && rec.value.source == source && WellFormed(rec.value) && (Held(ont, rec.value) <==> held)
      then rec else None
  }

  /** The others that a degenerate rule of the mapping covers. */
  function Misfits(env: I.Env, source: string, ont: I.Ontology): Bytes -> Option<I.Record> {
    (token: Bytes) =>
      var rec := Named(env, source, ont, false)(token);
      if rec.Some? && ont.degenerate(source, rec.value.role) then rec else None
  }

  /** Under an ontology every well-formed record of a source is counted exactly once,
      duplicates included: quarantined counts those held back and mapped all
      others, of which degenerate counts the misfits. */
  lemma {:induction false} EveryRecordIsCountedOnce(env: I.Env, source: string, data: Bytes)
    requires env.ontology.Some?
    ensures var c, ont := CountAll(Nothing, I.Events(env, source, data)), env.ontology.value;
            && c.quarantined == |I.Picked(Named(env, source, ont, true), data)|
            && c.mapped == |I.Picked(Named(env, source, ont, false), data)|
            && c.degenerate == |I.Picked(Misfits(env, source, ont), data)|
  {
    CountsFrom(env, source, data, Nothing);
  }

  lemma {:induction false} CountsFrom(env: I.Env, source: string, data: Bytes, c: SourceCoverage)
    requires env.ontology.Some?
    ensures var after, ont := CountAll(c, I.Events(env, source, data)), env.ontology.value;
            && after.quarantined == c.quarantined + |I.Picked(Named(env, source, ont, true), data)|
            && after.mapped == c.mapped + |I.Picked(Named(env, source, ont, false), data)|
            && after.degenerate == c.degenerate + |I.Picked(Misfits(env, source, ont), data)|
    decreases |data|
  {
    if data == [] {
      assert I.Events(env, source, data) == [];
    } else {
      var n, token := Advance(data), Token(data);
      var event := I.CountedFor(env, source)(token);
      I.UnfoldEvents(env, source, c, data, token, n);
      CountsFrom(env, source, data[n..], I.CountPicked(c, event));
      OneLineCounts(env, source, token, c);
    }
  }

  lemma {:induction false} OneLineCounts(env: I.Env, source: string, token: Bytes, c: SourceCoverage)
    requires env.ontology.Some?
    ensures var after, ont := I.CountPicked(c, I.CountedFor(env, source)(token)), env.ontology.value;
            && after.quarantined == c.quarantined + |I.First(Named(env, source, ont, true)(token))|
            && after.mapped == c.mapped + |I.First(Named(env, source, ont, false)(token))|
            && after.degenerate == c.degenerate + |I.First(Misfits(env, source, ont)(token))|
  {
    if token != [] && env.decode(token).Some? {
      var rec := env.decode(token).value;
      AcceptedIff(env, rec);
      CountedIff(env, rec);
    }
  }

  // ---------------------------------------------------- ingest, record by record

  /** What makes a record a turn. */
  predicate Speaks(env: I.Env, rec: I.Record) {
    && rec.schema == "cogos.observatory.conversations/v0.1"
    && "" !in {rec.source, rec.sessionId, rec.timestamp, rec.text}
    && rec.role in {"user", "assistant", "tool", "system"}
    && (env.ontology.Some? ==> env.ontology.value.mappingRef(rec.source) != "")
  }

  function Spoken(env: I.Env): Bytes -> Option<I.Record> {
    (token: Bytes) =>
      var rec := if token == [] then None else env.decode(token);
      if rec.Some? && Speaks(env, rec.value) then rec else None
  }

  predicate InSession(rec: I.Record, k: string) { rec.source + "/" + rec.sessionId == k }

  predicate Mentioned(recs: seq<I.Record>, k: string) { exists i :: 0 <= i < |recs| && InSession(recs[i], k) }

  /** Two records are one turn: the same stable id, or none and the same role,
      timestamp and text. */
  predicate SameTurn(a: I.Record, b: I.Record) {
    if a.stableId != "" || b.stableId != "" then a.stableId == b.stableId
    else a.role == b.role && a.timestamp == b.timestamp && a.text == b.text
  }

  predicate IsFirstRecord(recs: seq<I.Record>, k: string, i: nat) {
    i < |recs| && InSession(recs[i], k) && forall j :: 0 <= j < i && InSession(recs[j], k) ==> !SameTurn(recs[j], recs[i])
  }

  function FirstRecords(recs: seq<I.Record>, k: string): nat -> bool { (i: nat) => IsFirstRecord(recs, k, i) }

  /** The content hash tells the records apart. */
  predicate HashDistinguishes(env: I.Env, recs: seq<I.Record>) {
    forall i, j :: 0 <= i < |recs| && 0 <= j < |recs| && HashOf(env, recs[i]) == HashOf(env, recs[j]) ==>
      recs[i].role == recs[j].role && recs[i].timestamp == recs[j].timestamp && recs[i].text == recs[j].text
  }

  function HashOf(env: I.Env, rec: I.Record): string { env.hash(rec.role, rec.timestamp, rec.text) }

  predicate RoleIs(name: string, role: Role) {
    match role
    case User => name == "user"
    case Assistant => name == "assistant"
    case Tool => name == "tool"
    case System => name == "system"
    case UserDraft => name == "user-draft"
  }

  predicate VersionsAre(env: I.Env, rec: I.Record, ontology: string, mapping: string) {
    match env.ontology
    case None => ontology == "" && mapping == ""
    case Some(ont) => ontology == ont.ref && mapping == ont.mappingRef(rec.source)
  }

  /** Turn m of session k holds what the record says. */
  predicate RecordTurn(env: I.Env, rec: I.Record, k: string, m: nat, t: Turn) {
    && t.uuid == (if rec.stableId != "" then rec.stableId else HashOf(env, rec))
    && t.sessionId == k && t.turnIndex == (if rec.turnIndex.Some? then rec.turnIndex.value else m)
    && RoleIs(rec.role, t.role) && t.timestamp == env.parseTime(rec.timestamp)
    && Clipped(rec.text, env.maxTurnLen, t.text)
    && t.component == "session.turn" && VersionsAre(env, rec, t.ontologyVersion, t.mappingVersion)
    && !t.isToolCall && t.parentUuid == ""
  }

  function RecordTitles(recs: seq<I.Record>, ns: seq<nat>): seq<string> {
    seq(|ns|, m requires 0 <= m < |ns| => if ns[m] < |recs| then recs[ns[m]].title else "")
  }

  function RecordIdentities(recs: seq<I.Record>, ns: seq<nat>): seq<string> {
    seq(|ns|, m requires 0 <= m < |ns| => if ns[m] < |recs| then recs[ns[m]].identity else "")
  }

  ghost predicate FromFirstRecords(env: I.Env, recs: seq<I.Record>, k: string, e: I.Entry, ns: seq<nat>) {
    && Lists(ns, |recs|, FirstRecords(recs, k))
    && |e.session.turns| == |ns|
    && (forall m :: 0 <= m < |ns| ==> ns[m] < |recs| && RecordTurn(env, recs[ns[m]], k, m, e.session.turns[m]))
    && e.session.head.title == FirstNonEmpty(RecordTitles(recs, ns))
    && e.identity == FirstNonEmpty(RecordIdentities(recs, ns))
  }

  // The items a parse works on, against the records they stand for.

  ghost predicate Stands(env: I.Env, rec: I.Record, item: I.Item) {
    && Speaks(env, rec)
    && InSession(rec, item.key) && item.source == rec.source && item.index == rec.turnIndex
    && item.dedup == (if rec.stableId != "" then I.Stable(rec.stableId) else I.Hashed(HashOf(env, rec)))
    && RoleIs(rec.role, item.role) && item.timestamp == env.parseTime(rec.timestamp)
    && Clipped(rec.text, env.maxTurnLen, item.text) && item.title == rec.title && item.identity == rec.identity
    && VersionsAre(env, rec, item.ontology, item.mapping)
  }

  ghost predicate AllStand(env: I.Env, recs: seq<I.Record>, items: seq<I.Item>) {
    |recs| == |items| && forall i :: 0 <= i < |recs| ==> Stands(env, recs[i], items[i])
  }

  lemma {:induction false} OneStands(env: I.Env, token: Bytes)
    ensures AllStand(env, I.First(Spoken(env)(token)), I.First(I.Accepted(env)(token)))
  {
    if token != [] && env.decode(token).Some? {
      AcceptedIff(env, env.decode(token).value);
    }
  }

  lemma StandTogether(env: I.Env, a: seq<I.Record>, b: seq<I.Record>, x: seq<I.Item>, y: seq<I.Item>)
    requires AllStand(env, a, x) && AllStand(env, b, y)
    ensures AllStand(env, a + b, x + y)
  {
  }

  lemma {:induction false} LinesStand(env: I.Env, data: Bytes)
    ensures AllStand(env, I.Picked(Spoken(env), data), I.Picked(I.Accepted(env), data))
    decreases |data|
  {
    if data != [] {
      var rest := data[Advance(data)..];
      OneStands(env, Token(data));
      LinesStand(env, rest);
      StandTogether(env, I.First(Spoken(env)(Token(data))), I.Picked(Spoken(env), rest),
                    I.First(I.Accepted(env)(Token(data))), I.Picked(I.Accepted(env), rest));
    }
  }

  lemma {:induction false} FilesStand(env: I.Env, cut: D.Cut, files: seq<D.File>)
    ensures AllStand(env, D.Collect(Spoken(env), cut, files), D.Collect(I.Accepted(env), cut, files))
  {
    if files != [] {
      var front, f := files[..|files| - 1], files[|files| - 1];
      FilesStand(env, cut, front);
      LinesStand(env, cut(f));
      StandTogether(env, D.Collect(Spoken(env), cut, front), I.Picked(Spoken(env), cut(f)),
                    D.Collect(I.Accepted(env), cut, front), I.Picked(I.Accepted(env), cut(f)));
    }
  }

  /** Keys are equal exactly when the records are one turn. */
  lemma {:induction false} KeysMatchTurns(env: I.Env, recs: seq<I.Record>, items: seq<I.Item>, i: nat, j: nat)
    requires AllStand(env, recs, items) && HashDistinguishes(env, recs) && i < |recs| && j < |recs|
    ensures items[i].dedup == items[j].dedup <==> SameTurn(recs[i], recs[j])
  {
    assert Stands(env, recs[i], items[i]) && Stands(env, recs[j], items[j]);
  }

  lemma {:induction false} FirstsMatch(env: I.Env, recs: seq<I.Record>, items: seq<I.Item>, k: string, i: nat)
    requires AllStand(env, recs, items) && HashDistinguishes(env, recs) && i < |recs|
    ensures IsFirst(items, k, i) <==> IsFirstRecord(recs, k, i)
  {
    forall j | 0 <= j <= i
      ensures (items[j].key == k <==> InSession(recs[j], k)) && (items[j].dedup == items[i].dedup <==> SameTurn(recs[j], recs[i]))
    {
      assert Stands(env, recs[j], items[j]);
      KeysMatchTurns(env, recs, items, j, i);
    }
  }

  lemma {:induction false} ListsMatch(env: I.Env, recs: seq<I.Record>, items: seq<I.Item>, k: string, ns: seq<nat>)
    requires AllStand(env, recs, items) && HashDistinguishes(env, recs) && Lists(ns, |items|, Firsts(items, k))
    ensures Lists(ns, |recs|, FirstRecords(recs, k))
  {
    forall i: nat | i < |recs| ensures Firsts(items, k)(i) <==> FirstRecords(recs, k)(i) {
      FirstsMatch(env, recs, items, k, i);
    }
  }

  lemma {:induction false} TurnMatches(env: I.Env, rec: I.Record, item: I.Item, k: string, m: nat)
    requires Stands(env, rec, item) && item.key == k
    ensures RecordTurn(env, rec, k, m, I.TurnOf(item, m))
  {
  }

  lemma {:induction false} TextsMatch(env: I.Env, recs: seq<I.Record>, items: seq<I.Item>, ns: seq<nat>)
    requires AllStand(env, recs, items) && forall m :: 0 <= m < |ns| ==> ns[m] < |items|
    ensures RecordTitles(recs, ns) == Titles(items, ns) && RecordIdentities(recs, ns) == Identities(items, ns)
  {
    forall m | 0 <= m < |ns| ensures recs[ns[m]].title == items[ns[m]].title && recs[ns[m]].identity == items[ns[m]].identity {
      assert Stands(env, recs[ns[m]], items[ns[m]]);
    }
  }

  lemma {:induction false} ItemsToRecords(
    env: I.Env, recs: seq<I.Record>, items: seq<I.Item>, k: string, s: I.Accum, ns: seq<nat>)
    requires AllStand(env, recs, items) && HashDistinguishes(env, recs) && FromFirsts(items, k, s, ns)
    ensures FromFirstRecords(env, recs, k, s.entry, ns)
  {
    ListsMatch(env, recs, items, k, ns);
    forall m | 0 <= m < |ns| ensures ns[m] < |recs| && RecordTurn(env, recs[ns[m]], k, m, s.entry.session.turns[m]) {
      assert Firsts(items, k)(ns[m]) && Stands(env, recs[ns[m]], items[ns[m]]);
      TurnMatches(env, recs[ns[m]], items[ns[m]], k, m);
    }
    TextsMatch(env, recs, items, ns);
  }

  lemma {:induction false} SomeInSession(env: I.Env, recs: seq<I.Record>, items: seq<I.Item>, k: string)
    requires AllStand(env, recs, items)
    ensures S.FirstOf(items, k).Some? <==> Mentioned(recs, k)
    decreases |items|
  {
    if items != [] {
      assert Stands(env, recs[0], items[0]);
      assert AllStand(env, recs[1..], items[1..]) by {
        forall i | 0 <= i < |recs[1..]| ensures Stands(env, recs[1..][i], items[1..][i]) {
          assert Stands(env, recs[i + 1], items[i + 1]);
        }
      }
      SomeInSession(env, recs[1..], items[1..], k);
      if i :| 0 <= i < |recs[1..]| && InSession(recs[1..][i], k) { assert InSession(recs[i + 1], k); }
      if i :| 0 <= i < |recs| && InSession(recs[i], k) {
        if i > 0 { assert InSession(recs[1..][i - 1], k); }
      }
    }
  }

  /** What a full parse of any files makes of session k, in terms of the decoded
      records: it exists exactly when a record of it was accepted; its turns are
      exactly the accepted records that no earlier one of the session repeats, in
      file order, each holding what its record says; title and identity are the
      first non-empty ones among them. */
  lemma {:induction false} SessionIsFirstRecords(src: D.Source, files: seq<D.File>, k: string) returns (ns: seq<nat>)
    requires HashDistinguishes(src.env, D.Collect(Spoken(src.env), D.Whole, files))
    ensures var recs, e := D.Collect(Spoken(src.env), D.Whole, files), S.Reference(D.FullItems(src, files), k);
            && (e.Some? <==> Mentioned(recs, k))
            && (e.Some? ==> FromFirstRecords(src.env, recs, k, e.value, ns))
  {
    FilesStand(src.env, D.Whole, files);
    ns := ReferenceOfRecords(src.env, D.Collect(Spoken(src.env), D.Whole, files), D.FullItems(src, files), k);
  }

  lemma {:induction false} ReferenceOfRecords(env: I.Env, recs: seq<I.Record>, items: seq<I.Item>, k: string)
    returns (ns: seq<nat>)
    requires AllStand(env, recs, items) && HashDistinguishes(env, recs)
    ensures var e := S.Reference(items, k);
            && (e.Some? <==> Mentioned(recs, k))
            && (e.Some? ==> FromFirstRecords(env, recs, k, e.value, ns))
  {
    SomeInSession(env, recs, items, k);
    var first := S.FirstOf(items, k);
    ns := [];
    if first.Some? {
      ns := SessionIsFirstItems(items, k, first.value.source);
      ItemsToRecords(env, recs, items, k, S.Whole(items, k, first.value.source), ns);
    }
  }

  // ------------------------------------------------------------ session files

  /** The records of a session file, in order. */
  function Decoded(cfg: P.Config): Bytes -> Option<P.Record> {
    (token: Bytes) => if token == [] then None else cfg.decode(token)
  }

  function Records(cfg: P.Config, data: Bytes): seq<P.Record> { I.Picked(Decoded(cfg), data) }

  function ConsumeRecord(cfg: P.Config, st: P.State, rec: P.Record): P.State {
    P.ConsumeBody(cfg, st.(head := st.head.(entrypoint := if st.head.entrypoint == "" then rec.entrypoint else st.head.entrypoint)),
                  rec.body)
  }

  function ConsumeRecords(cfg: P.Config, st: P.State, recs: seq<P.Record>): P.State {
    if recs == [] then st else ConsumeRecord(cfg, ConsumeRecords(cfg, st, recs[..|recs| - 1]), recs[|recs| - 1])
  }

  lemma {:induction false} ConsumeFirst(cfg: P.Config, st: P.State, rec: P.Record, rest: seq<P.Record>)
    ensures ConsumeRecords(cfg, st, [rec] + rest) == ConsumeRecords(cfg, ConsumeRecord(cfg, st, rec), rest)
  {
    var all := [rec] + rest;
    if rest == [] {
      assert all[..0] == [];
    } else {
      assert all[..|all| - 1] == [rec] + rest[..|rest| - 1];
      ConsumeFirst(cfg, st, rec, rest[..|rest| - 1]);
    }
  }

  lemma {:induction false} GoodAside(cfg: P.Config, st: P.State, recs: seq<P.Record>, good: nat)
    ensures ConsumeRecords(cfg, st.(good := good), recs) == ConsumeRecords(cfg, st, recs).(good := good)
  {
    if recs != [] { GoodAside(cfg, st, recs[..|recs| - 1], good); }
  }

  /** Apart from the offset, the scan sees only the decoded records. */
  lemma {:induction false} ScanSeesRecords(cfg: P.Config, st: P.State, data: Bytes, base: nat)
    ensures FoldLines(P.Step(cfg), st, data, base).(good := 0) == ConsumeRecords(cfg, st, Records(cfg, data)).(good := 0)
    decreases |data|
  {
    if data == [] {
      FoldOfNothing(P.Step(cfg), st, data, base);
    } else {
      var next, rest, end := ScanStep(cfg, st, data, base);
      ScanSeesRecords(cfg, next, rest, end);
    }
  }

  lemma {:induction false} ScanStep(cfg: P.Config, st: P.State, data: Bytes, base: nat)
    returns (next: P.State, rest: Bytes, end: nat)
    requires data != []
    ensures |rest| < |data| && FoldLines(P.Step(cfg), st, data, base) == FoldLines(P.Step(cfg), next, rest, end)
    ensures ConsumeRecords(cfg, next, Records(cfg, rest)).(good := 0)
         == ConsumeRecords(cfg, st, Records(cfg, data)).(good := 0)
  {
    var token;
    next, rest, end, token := FoldStep(cfg, st, data, base);
    OneLineSeen(cfg, st, data, token, rest, next, end);
  }

  lemma {:induction false} FoldStep(cfg: P.Config, st: P.State, data: Bytes, base: nat)
    returns (next: P.State, rest: Bytes, end: nat, token: Bytes)
    requires data != []
    ensures token == Token(data) && rest == data[Advance(data)..] && |rest| < |data|
    ensures next == P.Consume(cfg, st, Line(token, end))
    ensures FoldLines(P.Step(cfg), st, data, base) == FoldLines(P.Step(cfg), next, rest, end)
  {
    var n := Advance(data);
    token, rest, end := Token(data), data[n..], base + n;
    next := P.Step(cfg)(st, Line(token, end));
    FoldUnfoldsTo(P.Step(cfg), st, data, base, n, token, rest, next, end);
  }

  lemma {:induction false} OneLineSeen(
    cfg: P.Config, st: P.State, data: Bytes, token: Bytes, rest: Bytes, next: P.State, end: nat)
    requires data != [] && token == Token(data) && rest == data[Advance(data)..]
    requires next == P.Consume(cfg, st, Line(token, end))
    ensures ConsumeRecords(cfg, next, Records(cfg, rest)).(good := 0)
         == ConsumeRecords(cfg, st, Records(cfg, data)).(good := 0)
  {
    var rec, tail := Decoded(cfg)(token), Records(cfg, rest);
    assert Records(cfg, data) == I.First(rec) + tail;
    if rec.Some? {
      ConsumeFirst(cfg, st, rec.value, tail);
      var plain := ConsumeRecord(cfg, st, rec.value);
      assert next == plain.(good := end);
      GoodAside(cfg, plain, tail, end);
    } else {
      assert [] + tail == tail;
      assert next == st.(good := next.good);
      GoodAside(cfg, st, tail, next.good);
    }
  }

  /** A message whose uuid no earlier message carries. */
  predicate IsNewMessage(recs: seq<P.Record>, i: nat) {
    && i < |recs| && recs[i].body.Message?
    && (recs[i].body.uuid != "" ==>
          forall j :: 0 <= j < i && recs[j].body.Message? ==> recs[j].body.uuid != recs[i].body.uuid)
  }

  predicate IsTurn(recs: seq<P.Record>, i: nat) { IsNewMessage(recs, i) && recs[i].body.content.Some? }

  function TurnsAmong(recs: seq<P.Record>): nat -> bool { (i: nat) => IsTurn(recs, i) }

  function Entrypoints(recs: seq<P.Record>): seq<string> {
    seq(|recs|, i requires 0 <= i < |recs| => recs[i].entrypoint)
  }

  /** The title of the last title record that has one. */
  function LastTitle(recs: seq<P.Record>): string {
    if recs == [] then "" else
    var body := recs[|recs| - 1].body;
    if body.AiTitle? && body.title != "" then body.title else LastTitle(recs[..|recs| - 1])
  }

  ghost predicate FromRecords(cfg: P.Config, recs: seq<P.Record>, st: P.State, ns: seq<nat>) {
    && Lists(ns, |recs|, TurnsAmong(recs))
    && RecordTurns(cfg, recs, ns, st.turns)
    && st.head.entrypoint == FirstNonEmpty(Entrypoints(recs)) && st.head.title == LastTitle(recs)
    && UuidsAre(recs, st.seen)
  }

  ghost predicate RecordTurns(cfg: P.Config, recs: seq<P.Record>, ns: seq<nat>, turns: seq<Turn>) {
    |turns| == |ns| && forall m :: 0 <= m < |ns| ==> TurnFrom(cfg, recs, ns[m], turns[m], m)
  }

  /** Turn m holds what record i says. */
  predicate TurnFrom(cfg: P.Config, recs: seq<P.Record>, i: nat, t: Turn, m: nat) {
    && i < |recs| && recs[i].body.Message? && recs[i].body.content.Some?
    && t.uuid == recs[i].body.uuid && t.sessionId == cfg.sessionId && t.turnIndex == m
    && t.role == recs[i].body.role && t.timestamp == recs[i].body.timestamp && t.parentUuid == recs[i].body.parent
    && t.isToolCall == recs[i].body.content.value.isToolCall
    && Clipped(recs[i].body.content.value.text, cfg.maxTurnLen, t.text)
    && t.component == t.ontologyVersion == t.mappingVersion == ""
  }

  ghost predicate UuidsAre(recs: seq<P.Record>, seen: set<string>) {
    forall u :: u in seen <==> u != "" && exists i :: 0 <= i < |recs| && recs[i].body.Message? && recs[i].body.uuid == u
  }

  lemma {:induction false} RecordsGive(cfg: P.Config, recs: seq<P.Record>) returns (ns: seq<nat>)
    ensures FromRecords(cfg, recs, ConsumeRecords(cfg, P.Start(P.NoHead), recs), ns)
  {
    if recs == [] {
      ns := [];
    } else {
      var front, rec := recs[..|recs| - 1], recs[|recs| - 1];
      var ms := RecordsGive(cfg, front);
      assert recs == front + [rec];
      ns := RecordAdds(cfg, front, rec, ConsumeRecords(cfg, P.Start(P.NoHead), front), ms);
    }
  }

  lemma {:induction false} RecordAdds(cfg: P.Config, front: seq<P.Record>, rec: P.Record, st: P.State, ms: seq<nat>)
    returns (ns: seq<nat>)
    requires FromRecords(cfg, front, st, ms)
    ensures FromRecords(cfg, front + [rec], ConsumeRecord(cfg, st, rec), ns)
  {
    var recs, n := front + [rec], |front|;
    EarlierRecords(front, rec);
    ListsMore(ms, n, TurnsAmong(front), TurnsAmong(recs));
    NewMessage(front, rec, st.seen);
    HeadAdds(cfg, front, rec, st);
    UuidsAdd(cfg, front, rec, st);
    TurnsAdd(cfg, front, rec, ms, st.turns);
    TurnsOfRecord(cfg, st, rec);
    ns := if IsTurn(recs, n) then ms + [n] else ms;
  }

  lemma TurnsOfRecord(cfg: P.Config, st: P.State, rec: P.Record)
    ensures var isNew := rec.body.Message? && (rec.body.uuid == "" || rec.body.uuid !in st.seen) && rec.body.content.Some?;
            ConsumeRecord(cfg, st, rec).turns ==
              if isNew then st.turns + [P.TurnOf(cfg, rec.body, |st.turns|)] else st.turns
  {
  }

  lemma {:induction false} TurnsAdd(cfg: P.Config, front: seq<P.Record>, rec: P.Record, ms: seq<nat>, turns: seq<Turn>)
    requires RecordTurns(cfg, front, ms, turns)
    ensures RecordTurns(cfg, front + [rec], ms, turns)
    ensures rec.body.Message? && rec.body.content.Some? ==>
              RecordTurns(cfg, front + [rec], ms + [|front|], turns + [P.TurnOf(cfg, rec.body, |turns|)])
  {
    var recs := front + [rec];
    assert recs[|front|] == rec && forall i :: 0 <= i < |front| ==> recs[i] == front[i];
    forall m | 0 <= m < |ms| ensures TurnFrom(cfg, recs, ms[m], turns[m], m) {
      assert TurnFrom(cfg, front, ms[m], turns[m], m);
    }
  }

  lemma EarlierRecords(front: seq<P.Record>, rec: P.Record)
    ensures forall i: nat :: i < |front| ==> (IsTurn(front, i) <==> IsTurn(front + [rec], i))
    ensures forall i: nat :: i < |front| ==> (front + [rec])[i] == front[i]
  {
    var recs := front + [rec];
    assert forall i :: 0 <= i < |front| ==> recs[i] == front[i];
  }

  lemma NewMessage(front: seq<P.Record>, rec: P.Record, seen: set<string>)
    requires UuidsAre(front, seen)
    ensures IsNewMessage(front + [rec], |front|) <==> rec.body.Message? && (rec.body.uuid == "" || rec.body.uuid !in seen)
    ensures (front + [rec])[|front|] == rec
  {
    var recs := front + [rec];
    assert recs[|front|] == rec && forall i :: 0 <= i < |front| ==> recs[i] == front[i];
  }

  lemma HeadAdds(cfg: P.Config, front: seq<P.Record>, rec: P.Record, st: P.State)
    requires st.head.entrypoint == FirstNonEmpty(Entrypoints(front)) && st.head.title == LastTitle(front)
    ensures var st', recs := ConsumeRecord(cfg, st, rec), front + [rec];
            st'.head.entrypoint == FirstNonEmpty(Entrypoints(recs)) && st'.head.title == LastTitle(recs)
  {
    var recs := front + [rec];
    assert Entrypoints(recs)[..|front|] == Entrypoints(front);
    assert recs[..|front|] == front;
  }

  lemma UuidsAdd(cfg: P.Config, front: seq<P.Record>, rec: P.Record, st: P.State)
    requires UuidsAre(front, st.seen)
    ensures UuidsAre(front + [rec], ConsumeRecord(cfg, st, rec).seen)
  {
    var st', recs := ConsumeRecord(cfg, st, rec), front + [rec];
    assert recs[|front|] == rec;
    forall u
      ensures u in st'.seen <==> u != "" && exists i :: 0 <= i < |recs| && recs[i].body.Message? && recs[i].body.uuid == u
    {
      if u in st.seen {
        var i :| 0 <= i < |front| && front[i].body.Message? && front[i].body.uuid == u;
        assert recs[i] == front[i];
      }
      if i :| 0 <= i < |recs| && recs[i].body.Message? && recs[i].body.uuid == u {
        if i < |front| { assert front[i] == recs[i]; }
      }
    }
  }

  /** A full parse turns exactly the messages with content whose uuid no earlier
      message carries into turns, in file order and numbered from zero; the
      entrypoint is the first non-empty one and the title the last non-empty one. */
  lemma {:induction false} ParseIsWhatTheRecordsSay(cfg: P.Config, data: Bytes) returns (ns: seq<nat>)
    ensures FromRecords(cfg, Records(cfg, data), P.Parse(cfg, P.NoHead, data), ns)
  {
    ScanSeesRecords(cfg, P.Start(P.NoHead), data, 0);
    ns := RecordsGive(cfg, Records(cfg, data));
  }

  // ------------------------------------------------------------ written lines

  /** A line as a writer appends it, ended by a newline or a carriage return and a
      newline. */
  datatype Row = Row(text: Bytes, crlf: bool)

  function Ended(row: Row): Bytes { row.text + if row.crlf then [CR, NL] else [NL] }

  function Written(rows: seq<Row>): Bytes { if rows == [] then [] else Ended(rows[0]) + Written(rows[1..]) }

  /** No newline inside, no carriage return at the end. */
  predicate Clean(text: Bytes) { NL !in text && (text != [] ==> text[|text| - 1] != CR) }

  function PickedRows<T>(pick: Bytes -> Option<T>, rows: seq<Row>): seq<T> {
    if rows == [] then [] else I.First(pick(rows[0].text)) + PickedRows(pick, rows[1..])
  }

  lemma {:induction false} AdvanceOver(line: Bytes, rest: Bytes)
    requires NL !in line
    ensures Advance(line + [NL] + rest) == |line| + 1 && Advance(line) == |line|
  {
    var data := line + [NL] + rest;
    if line != [] {
      assert data[0] == line[0] && data[1..] == line[1..] + [NL] + rest;
      AdvanceOver(line[1..], rest);
    }
  }

  lemma {:induction false} RowIsRead(row: Row, rest: Bytes)
    requires Clean(row.text)
    ensures Token(Ended(row) + rest) == row.text && (Ended(row) + rest)[Advance(Ended(row) + rest)..] == rest
  {
    var line := if row.crlf then row.text + [CR] else row.text;
    var data := Ended(row) + rest;
    assert data == line + [NL] + rest;
    AdvanceOver(line, rest);
    assert data[..|line|] == line && data[|line| + 1..] == rest;
  }

  /** The scanner reads back exactly the lines that were written, whichever line ends
      were used, and then the unterminated tail. */
  lemma {:induction false} ScanReadsBack<T>(pick: Bytes -> Option<T>, rows: seq<Row>, tail: Bytes)
    requires (forall i :: 0 <= i < |rows| ==> Clean(rows[i].text)) && Clean(tail)
    ensures I.Picked(pick, Written(rows) + tail) == PickedRows(pick, rows) + if tail == [] then [] else I.First(pick(tail))
  {
    var last := if tail == [] then [] else I.First(pick(tail));
    if rows == [] {
      assert Written(rows) + tail == tail;
      TailIsRead(pick, tail);
      assert PickedRows(pick, rows) + last == last;
    } else {
      ScanReadsBack(pick, rows[1..], tail);
      MoreRows(pick, rows, tail, last);
    }
  }

  lemma {:induction false} MoreRows<T>(pick: Bytes -> Option<T>, rows: seq<Row>, tail: Bytes, last: seq<T>)
    requires rows != [] && Clean(rows[0].text)
    requires I.Picked(pick, Written(rows[1..]) + tail) == PickedRows(pick, rows[1..]) + last
    ensures I.Picked(pick, Written(rows) + tail) == PickedRows(pick, rows) + last
  {
    var rest := Written(rows[1..]) + tail;
    assert Written(rows) + tail == Ended(rows[0]) + rest;
    FirstRow(pick, rows[0], rest);
    Regrouped(I.First(pick(rows[0].text)), PickedRows(pick, rows[1..]), last);
  }

  lemma {:induction false} Regrouped<T>(a: seq<T>, b: seq<T>, c: seq<T>)
    ensures a + (b + c) == (a + b) + c
  {
  }

  lemma {:induction false} FirstRow<T>(pick: Bytes -> Option<T>, row: Row, rest: Bytes)
    requires Clean(row.text)
    ensures I.Picked(pick, Ended(row) + rest) == I.First(pick(row.text)) + I.Picked(pick, rest)
  {
    RowIsRead(row, rest);
  }

  lemma {:induction false} TailIsRead<T>(pick: Bytes -> Option<T>, tail: Bytes)
    requires Clean(tail)
    ensures I.Picked(pick, tail) == if tail == [] then [] else I.First(pick(tail))
  {
    if tail != [] {
      AdvanceOver(tail, []);
      assert tail[|tail|..] == [] && tail[..|tail|] == tail;
      assert Token(tail) == tail;
      assert I.Picked(pick, tail[|tail|..]) == [];
    }
  }
}
