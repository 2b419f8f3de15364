/** Search with its session-level time pre-filter
    (internal/conversations/index.go:817-911). */
module Search {
  import opened Prelude
  import opened SessionParser
  import opened Ingest
  import IngestSessions
  import IndexStore
  import SessionIndexing
  import Lines

  /** Zero means "not set" for since, until and limit. Term matching, excerpts and
      case-folded identity comparison are parameters. */
  datatype Query = Query(
    since: Time, until: Time, sessionId: string, identity: string, limit: nat,
    matches: string -> bool, excerpt: string -> string, sameIdentity: (string, string) -> bool)

  datatype Hit = Hit(
    sessionId: string, turnIndex: int, uuid: string, timestamp: Time, role: Role, excerpt: string,
    identity: string, title: string, source: string)

  // ------------------------------------------------------------ specification

  /** `sessionMayMatchWindow`. */
  predicate MayMatch(q: Query, b: Bounds) {
    !(q.since != 0 && b.last != 0 && b.last < q.since) && !(q.until != 0 && b.first != 0 && b.first > q.until)
  }

  predicate InWindow(q: Query, t: Time) {
    !(q.since != 0 && t < q.since) && !(q.until != 0 && t > q.until)
  }

  predicate Wanted(q: Query, e: Entry) { q.identity == "" || q.sameIdentity(e.identity, q.identity) }

  function HitOf(q: Query, sid: string, e: Entry, t: Turn): Hit {
    Hit(sid, t.turnIndex, t.uuid, t.timestamp, t.role, q.excerpt(t.text), e.identity, e.session.head.title, e.source)
  }

  predicate Passes(q: Query, t: Turn) { InWindow(q, t.timestamp) && q.matches(t.text) }

  function TurnHits(q: Query, sid: string, e: Entry, turns: seq<Turn>): seq<Hit> {
    if turns == [] then []
    else
      var front, t := TurnHits(q, sid, e, turns[..|turns| - 1]), turns[|turns| - 1];
      if Passes(q, t) then front + [HitOf(q, sid, e, t)] else front
  }

  function SessionHits(idx: Index, q: Query, sid: string, prefilter: bool): seq<Hit> {
    if sid !in idx || !Wanted(q, idx[sid]) || (prefilter && !MayMatch(q, idx[sid].session.head.bounds)) then []
    else TurnHits(q, sid, idx[sid], idx[sid].session.turns)
  }

  function AllHits(idx: Index, q: Query, sids: seq<string>, prefilter: bool): seq<Hit> {
    if sids == [] then []
    else AllHits(idx, q, sids[..|sids| - 1], prefilter) + SessionHits(idx, q, sids[|sids| - 1], prefilter)
  }

  function Limited(limit: nat, hits: seq<Hit>): seq<Hit> {
    if limit > 0 && |hits| > limit then hits[..limit] else hits
  }

  /** No limit keeps every hit; a limit keeps the first hits, as many as it allows. */
  lemma LimitedIs(limit: nat, hits: seq<Hit>)
    ensures Limited(limit, hits) <= hits
    ensures limit == 0 ==> Limited(limit, hits) == hits
    ensures limit > 0 ==> |Limited(limit, hits)| == if |hits| < limit then |hits| else limit
  {
  }

  /** The one session asked for, or all of them in id order. */
  predicate Candidates(idx: Index, q: Query, sids: seq<string>) {
    if q.sessionId != "" then sids == [q.sessionId] else Increasing(sids) && ToSet(sids) == idx.Keys
  }

  // ------------------------------------------------------------------- method

  /** `Search`: the nested scan with its early return at the limit. */
  method Search(idx: Index, q: Query) returns (hits: seq<Hit>)
    ensures exists sids :: Candidates(idx, q, sids) && hits == Limited(q.limit, AllHits(idx, q, sids, true))
  {
    hits := [];
    var cands := [q.sessionId];
    if q.sessionId == "" { cands := IndexStore.SortedIds(idx.Keys); }
    for i := 0 to |cands|
      invariant hits == AllHits(idx, q, cands[..i], true) && (q.limit > 0 ==> |hits| < q.limit)
    {
      var sid := cands[i];
      NextSession(idx, q, cands, i);
      if sid !in idx { continue; }
      var e := idx[sid];
      if q.identity != "" && !q.sameIdentity(e.identity, q.identity) { continue; }
      if !MayMatch(q, e.session.head.bounds) { continue; }
      var full;
      hits, full := ScanTurns(idx, q, cands, i, hits);
      if full {
        assert Candidates(idx, q, cands);
        return;
      }
    }
    assert cands[..|cands|] == cands;
    assert Candidates(idx, q, cands);
  }

  lemma {:induction false} NextSession(idx: Index, q: Query, sids: seq<string>, i: nat)
    requires i < |sids|
    ensures AllHits(idx, q, sids[..i + 1], true) == AllHits(idx, q, sids[..i], true) + SessionHits(idx, q, sids[i], true)
  {
    assert sids[..i + 1][..i] == sids[..i];
  }

  /** There is one list of candidates. */
  lemma {:induction false} OnlyCandidates(idx: Index, q: Query, cands: seq<string>)
    requires Candidates(idx, q, cands)
    ensures forall sids :: Candidates(idx, q, sids) ==> sids == cands
  {
    if q.sessionId == "" {
      forall sids | Candidates(idx, q, sids) ensures sids == cands {
        SortedOnce(sids, cands);
      }
    }
  }

  lemma {:induction false} SortedOnce(a: seq<string>, b: seq<string>)
    requires Increasing(a) && Increasing(b) && ToSet(a) == ToSet(b)
    ensures a == b
    decreases |a|
  {
    if b != [] {
      var y := b[0];
      assert y in ToSet(b) && y in ToSet(a) && y in a;
    }
    if a != [] {
      SameLast(a, b);
      var fa, x := Front(a);
      var fb, y := Front(b);
      SortedOnce(fa, fb);
    }
  }

  lemma {:induction false} Front(a: seq<string>) returns (front: seq<string>, x: string)
    requires Increasing(a) && a != []
    ensures a == front + [x] && x == a[|a| - 1] && |front| < |a| && Increasing(front) && ToSet(front) == ToSet(a) - {x}
  {
    front, x := a[..|a| - 1], a[|a| - 1];
    forall i | 0 <= i < |front| ensures front[i] != x {
      assert a[i] == front[i] && a[|front|] == x;
      LessIrreflexive(x);
    }
    assert ToSet(a) == ToSet(front) + {x};
  }

  lemma {:induction false} SameLast(a: seq<string>, b: seq<string>)
    requires Increasing(a) && Increasing(b) && ToSet(a) == ToSet(b) && a != []
    ensures b != [] && a[|a| - 1] == b[|b| - 1]
  {
    var x := a[|a| - 1];
    assert x in ToSet(b);
    var j :| 0 <= j < |b| && b[j] == x;
    var y := b[|b| - 1];
    assert y in ToSet(a);
    var i :| 0 <= i < |a| && a[i] == y;
    if j < |b| - 1 && i < |a| - 1 {
      LessTransitive(x, y, x);
      LessIrreflexive(x);
    } else if j < |b| - 1 {
      LessIrreflexive(x);
    }
  }

  method ScanTurns(idx: Index, q: Query, sids: seq<string>, i: nat, before: seq<Hit>) returns (hits: seq<Hit>, full: bool)
    requires i < |sids| && sids[i] in idx && before == AllHits(idx, q, sids[..i], true)
    requires SessionHits(idx, q, sids[i], true) == TurnHits(q, sids[i], idx[sids[i]], idx[sids[i]].session.turns)
    requires q.limit > 0 ==> |before| < q.limit
    ensures full ==> hits == Limited(q.limit, AllHits(idx, q, sids, true))
    ensures !full ==> hits == before + SessionHits(idx, q, sids[i], true) && (q.limit > 0 ==> |hits| < q.limit)
  {
    var sid := sids[i];
    var e := idx[sid];
    var turns := e.session.turns;
    hits := before;
    for j := 0 to |turns|
      invariant hits == before + TurnHits(q, sid, e, turns[..j]) && (q.limit > 0 ==> |hits| < q.limit)
    {
      var t := turns[j];
      assert turns[..j + 1][..j] == turns[..j];
      if q.since != 0 && t.timestamp < q.since { continue; }
      if q.until != 0 && t.timestamp > q.until { continue; }
      if !q.matches(t.text) { continue; }
      hits := hits + [HitOf(q, sid, e, t)];
      if q.limit > 0 && |hits| >= q.limit {
        EarlyReturn(idx, q, sids, i, hits, j + 1);
        return hits, true;
      }
    }
    assert turns[..|turns|] == turns;
    full := false;
  }

  lemma {:induction false} TurnHitsPrefix(q: Query, sid: string, e: Entry, turns: seq<Turn>, j: nat)
    requires j <= |turns|
    ensures TurnHits(q, sid, e, turns[..j]) <= TurnHits(q, sid, e, turns)
  {
    if j == |turns| {
      assert turns[..j] == turns;
    } else {
      var front := turns[..|turns| - 1];
      assert front[..j] == turns[..j];
      TurnHitsPrefix(q, sid, e, front, j);
    }
  }

  lemma {:induction false} AllHitsPrefix(idx: Index, q: Query, sids: seq<string>, i: nat, prefilter: bool)
    requires i <= |sids|
    ensures AllHits(idx, q, sids[..i], prefilter) <= AllHits(idx, q, sids, prefilter)
  {
    if i == |sids| {
      assert sids[..i] == sids;
    } else {
      var front := sids[..|sids| - 1];
      assert front[..i] == sids[..i];
      AllHitsPrefix(idx, q, front, i, prefilter);
    }
  }

  /** The hits gathered when the limit is reached are the first ones of the full
      scan. */
  lemma {:induction false} EarlyReturn(idx: Index, q: Query, sids: seq<string>, i: nat, hits: seq<Hit>, j: nat)
    requires i < |sids| && sids[i] in idx && j <= |idx[sids[i]].session.turns| && q.limit > 0 && |hits| == q.limit
    requires hits == AllHits(idx, q, sids[..i], true) + TurnHits(q, sids[i], idx[sids[i]], idx[sids[i]].session.turns[..j])
    requires SessionHits(idx, q, sids[i], true) == TurnHits(q, sids[i], idx[sids[i]], idx[sids[i]].session.turns)
    ensures hits == Limited(q.limit, AllHits(idx, q, sids, true))
  {
    TurnHitsPrefix(q, sids[i], idx[sids[i]], idx[sids[i]].session.turns, j);
    AllHitsPrefix(idx, q, sids, i + 1, true);
    assert sids[..i + 1][..i] == sids[..i];
    var upto := AllHits(idx, q, sids[..i + 1], true);
    assert hits <= upto;
  }

  // ------------------------------------------------- what a plain scan returns

  /** Turn t of session e is one the query asks for. */
  predicate Asked(q: Query, e: Entry, t: Turn) {
    && (q.identity != "" ==> q.sameIdentity(e.identity, q.identity))
    && (q.since != 0 ==> q.since <= t.timestamp) && (q.until != 0 ==> t.timestamp <= q.until)
    && q.matches(t.text)
  }

  /** The hit says where it was found and what the turn and the session hold. */
  predicate Describes(h: Hit, q: Query, sid: string, e: Entry, t: Turn) {
    && h.sessionId == sid && h.identity == e.identity && h.title == e.session.head.title && h.source == e.source
    && h.turnIndex == t.turnIndex && h.uuid == t.uuid && h.timestamp == t.timestamp && h.role == t.role
    && h.excerpt == q.excerpt(t.text)
  }

  /** A position: which of the scanned sessions, and which of its turns. */
  type Place = (nat, nat)

  predicate IsPlace(idx: Index, q: Query, sids: seq<string>, p: Place) {
    && p.0 < |sids| && sids[p.0] in idx && p.1 < |idx[sids[p.0]].session.turns|
    && Asked(q, idx[sids[p.0]], idx[sids[p.0]].session.turns[p.1])
  }

  predicate Before(a: Place, b: Place) { a.0 < b.0 || (a.0 == b.0 && a.1 < b.1) }

  /** The hits are those at the given places, which are all places asked for, in
      scanning order. */
  ghost predicate HitsAt(idx: Index, q: Query, sids: seq<string>, hits: seq<Hit>, places: seq<Place>) {
    && |hits| == |places|
    && (forall a, b :: 0 <= a < b < |places| ==> Before(places[a], places[b]))
    && (forall a :: 0 <= a < |places| ==> HitAt(idx, q, sids, hits[a], places[a]))
    && (forall p :: IsPlace(idx, q, sids, p) ==> p in places)
  }

  predicate HitAt(idx: Index, q: Query, sids: seq<string>, h: Hit, p: Place) {
    IsPlace(idx, q, sids, p) && Describes(h, q, sids[p.0], idx[sids[p.0]], idx[sids[p.0]].session.turns[p.1])
  }

  /** The turns of one session that are asked for. */
  ghost predicate TurnsAt(q: Query, sid: string, e: Entry, turns: seq<Turn>, hits: seq<Hit>, js: seq<nat>) {
    && |hits| == |js|
    && (forall a, b :: 0 <= a < b < |js| ==> js[a] < js[b])
    && (forall a :: 0 <= a < |js| ==> js[a] < |turns| && Asked(q, e, turns[js[a]]) && Describes(hits[a], q, sid, e, turns[js[a]]))
    && (forall j :: 0 <= j < |turns| && Asked(q, e, turns[j]) ==> j in js)
  }

  lemma {:induction false} TurnsFound(q: Query, sid: string, e: Entry, turns: seq<Turn>) returns (js: seq<nat>)
    requires q.identity == "" || q.sameIdentity(e.identity, q.identity)
    ensures TurnsAt(q, sid, e, turns, TurnHits(q, sid, e, turns), js)
  {
    if turns == [] {
      js := [];
    } else {
      var front, t := turns[..|turns| - 1], turns[|turns| - 1];
      js := TurnsFound(q, sid, e, front);
      assert turns == front + [t];
      OneMoreTurn(q, sid, e, front, t, TurnHits(q, sid, e, front), js);
      assert Passes(q, t) <==> Asked(q, e, t);
      if Asked(q, e, t) { js := js + [|front|]; }
    }
  }

  lemma {:induction false} OneMoreTurn(q: Query, sid: string, e: Entry, front: seq<Turn>, t: Turn, hits: seq<Hit>, js: seq<nat>)
    requires TurnsAt(q, sid, e, front, hits, js)
    ensures Asked(q, e, t) ==> TurnsAt(q, sid, e, front + [t], hits + [HitOf(q, sid, e, t)], js + [|front|])
    ensures !Asked(q, e, t) ==> TurnsAt(q, sid, e, front + [t], hits, js)
  {
    var turns := front + [t];
    assert turns[|front|] == t && forall j :: 0 <= j < |front| ==> turns[j] == front[j];
    if Asked(q, e, t) {
      var more := js + [|front|];
      forall j | 0 <= j < |turns| && Asked(q, e, turns[j]) ensures j in more {
        if j < |front| { assert j in js; } else { assert more[|js|] == j; }
      }
    }
  }

  /** Where the turns of session i are. */
  function PlacesOf(i: nat, js: seq<nat>): (ps: seq<Place>)
    ensures |ps| == |js| && forall a :: 0 <= a < |ps| ==> ps[a] == (i, js[a])
  {
    seq(|js|, a requires 0 <= a < |js| => (i, js[a]))
  }

  lemma {:induction false} SessionFound(idx: Index, q: Query, sid: string) returns (js: seq<nat>)
    ensures sid in idx ==> TurnsAt(q, sid, idx[sid], idx[sid].session.turns, SessionHits(idx, q, sid, false), js)
    ensures sid !in idx ==> SessionHits(idx, q, sid, false) == [] && js == []
  {
    js := [];
    if sid in idx {
      var e := idx[sid];
      if q.identity == "" || q.sameIdentity(e.identity, q.identity) {
        js := TurnsFound(q, sid, e, e.session.turns);
      }
    }
  }

  lemma {:induction false} EarlierPlaces(idx: Index, q: Query, front: seq<string>, sid: string, p: Place)
    ensures p.0 < |front| ==> (IsPlace(idx, q, front + [sid], p) <==> IsPlace(idx, q, front, p))
    ensures IsPlace(idx, q, front, p) ==> p.0 < |front|
    ensures IsPlace(idx, q, front + [sid], p) ==> p.0 < |front| || p.0 == |front|
  {
    if p.0 < |front| { assert (front + [sid])[p.0] == front[p.0]; }
  }

  lemma {:induction false} OneMoreSession(
    idx: Index, q: Query, front: seq<string>, sid: string, hits: seq<Hit>, ps: seq<Place>, found: seq<Hit>, js: seq<nat>)
    requires HitsAt(idx, q, front, hits, ps)
    requires sid in idx ==> TurnsAt(q, sid, idx[sid], idx[sid].session.turns, found, js)
    requires sid !in idx ==> found == [] && js == []
    ensures HitsAt(idx, q, front + [sid], hits + found, ps + PlacesOf(|front|, js))
  {
    var sids, all := front + [sid], ps + PlacesOf(|front|, js);
    assert sids[|front|] == sid;
    forall a | 0 <= a < |all| ensures HitAt(idx, q, sids, (hits + found)[a], all[a]) {
      if a < |ps| {
        assert HitAt(idx, q, front, hits[a], ps[a]);
        assert sids[ps[a].0] == front[ps[a].0];
      } else {
        assert all[a] == (|front|, js[a - |ps|]);
      }
    }
    forall a, b | 0 <= a < b < |all| ensures Before(all[a], all[b]) {
      if b >= |ps| && a < |ps| { assert HitAt(idx, q, front, hits[a], ps[a]); }
    }
    forall p | IsPlace(idx, q, sids, p) ensures p in all {
      EarlierPlaces(idx, q, front, sid, p);
      if p.0 == |front| {
        var b :| 0 <= b < |js| && js[b] == p.1;
        assert all[|ps| + b] == p;
      }
    }
  }

  /** Without a limit, the hits of a plain scan are exactly the turns asked for:
      session by session, turn by turn, where the identity matches if one is asked
      for, the timestamp lies within the bounds that are set and the text matches,
      each with its turn's and its session's data. */
  lemma {:induction false} PlainScanFindsWhatIsAsked(idx: Index, q: Query, sids: seq<string>) returns (places: seq<Place>)
    ensures HitsAt(idx, q, sids, AllHits(idx, q, sids, false), places)
  {
    if sids == [] {
      places := [];
    } else {
      var front, sid := sids[..|sids| - 1], sids[|sids| - 1];
      var ps := PlainScanFindsWhatIsAsked(idx, q, front);
      var js := SessionFound(idx, q, sid);
      assert sids == front + [sid];
      OneMoreSession(idx, q, front, sid, AllHits(idx, q, front, false), ps, SessionHits(idx, q, sid, false), js);
      places := ps + PlacesOf(|front|, js);
    }
  }

  // ---------------------------------------------------- the pre-filter is exact

  /** A session with timestamps is skipped exactly when no time between its bounds lies
      in the window. */
  lemma SkippedIffDisjoint(q: Query, b: Bounds)
    requires 0 < b.first <= b.last && (q.since != 0 && q.until != 0 ==> q.since <= q.until)
    ensures MayMatch(q, b) <==> exists t: Time :: b.first <= t <= b.last && InWindow(q, t)
  {
    if MayMatch(q, b) {
      var t := if q.since > b.first then q.since else b.first;
      assert b.first <= t <= b.last && InWindow(q, t);
    }
  }

  /** The pre-filter skips the session although a turn without a timestamp would
      match: only an upper bound alone can do that. */
  ghost predicate Hidden(q: Query, e: Entry) {
    && Wanted(q, e)
    && q.since == 0 && 0 < q.until < e.session.head.bounds.first
    && exists i :: 0 <= i < |e.session.turns| && e.session.turns[i].timestamp == 0 && q.matches(e.session.turns[i].text)
  }

  lemma {:induction false} NoHits(q: Query, sid: string, e: Entry, turns: seq<Turn>)
    ensures TurnHits(q, sid, e, turns) == [] <==> forall i :: 0 <= i < |turns| ==> !Passes(q, turns[i])
  {
    if turns != [] {
      var front := turns[..|turns| - 1];
      NoHits(q, sid, e, front);
      assert forall i :: 0 <= i < |front| ==> front[i] == turns[i];
    }
  }

  /** Turns with a timestamp are never hidden by bounds that enclose them. */
  lemma {:induction false} ExcludedTurns(q: Query, e: Entry, i: nat)
    requires Encloses(e.session.head.bounds, e.session.turns) && !MayMatch(q, e.session.head.bounds)
    requires i < |e.session.turns| && Passes(q, e.session.turns[i])
    ensures e.session.turns[i].timestamp == 0 && q.since == 0 && 0 < q.until < e.session.head.bounds.first
  {
    var t := e.session.turns[i].timestamp;
    assert t > 0 ==> Holds(e.session.head.bounds, t);
  }

  lemma {:induction false} SessionIsExactIffNotHidden(idx: Index, q: Query, sid: string)
    requires sid in idx ==> Encloses(idx[sid].session.head.bounds, idx[sid].session.turns)
    ensures SessionHits(idx, q, sid, true) == SessionHits(idx, q, sid, false) <==> !(sid in idx && Hidden(q, idx[sid]))
  {
    if sid in idx && Wanted(q, idx[sid]) && !MayMatch(q, idx[sid].session.head.bounds) {
      var e := idx[sid];
      NoHits(q, sid, e, e.session.turns);
      if i :| 0 <= i < |e.session.turns| && Passes(q, e.session.turns[i]) { ExcludedTurns(q, e, i); }
      if Hidden(q, e) {
        var i :| 0 <= i < |e.session.turns| && e.session.turns[i].timestamp == 0 && q.matches(e.session.turns[i].text);
        assert Passes(q, e.session.turns[i]);
      }
    }
  }

  lemma {:induction false} PrefilterDropsOnly(idx: Index, q: Query, sids: seq<string>)
    ensures |AllHits(idx, q, sids, true)| <= |AllHits(idx, q, sids, false)|
    ensures |AllHits(idx, q, sids, true)| == |AllHits(idx, q, sids, false)| <==>
            (forall i :: 0 <= i < |sids| ==> SessionHits(idx, q, sids[i], true) == SessionHits(idx, q, sids[i], false))
    ensures |AllHits(idx, q, sids, true)| == |AllHits(idx, q, sids, false)| ==>
            AllHits(idx, q, sids, true) == AllHits(idx, q, sids, false)
  {
    if sids != [] {
      var front, last := sids[..|sids| - 1], sids[|sids| - 1];
      PrefilterDropsOnly(idx, q, front);
      assert sids == front + [last];
      var a, b := SessionHits(idx, q, last, true), SessionHits(idx, q, last, false);
      assert a == b || (a == [] && |b| > 0);
      LastAndFront(idx, q, sids, front, last);
    }
  }

  lemma LastAndFront(idx: Index, q: Query, sids: seq<string>, front: seq<string>, last: string)
    requires sids == front + [last]
    ensures (forall i :: 0 <= i < |sids| ==> SessionHits(idx, q, sids[i], true) == SessionHits(idx, q, sids[i], false)) <==>
            (forall i :: 0 <= i < |front| ==> SessionHits(idx, q, front[i], true) == SessionHits(idx, q, front[i], false))
            && SessionHits(idx, q, last, true) == SessionHits(idx, q, last, false)
  {
    assert sids[|front|] == last;
    assert forall i :: 0 <= i < |front| ==> front[i] == sids[i];
  }

  /** Every session's bounds enclose its turns. */
  ghost predicate Enclosed(idx: Index) {
    forall sid :: sid in idx ==> Encloses(idx[sid].session.head.bounds, idx[sid].session.turns)
  }

  predicate AllTimestamped(idx: Index) {
    forall sid :: sid in idx ==> forall t :: t in idx[sid].session.turns ==> t.timestamp > 0
  }

  /** Without a limit, the pre-filter returns what a scan of every session returns
      if and only if it hides no session. */
  lemma {:induction false} PrefilterIsExactIffNothingHidden(idx: Index, q: Query, sids: seq<string>)
    requires Enclosed(idx)
    ensures AllHits(idx, q, sids, true) == AllHits(idx, q, sids, false) <==>
            (forall i :: 0 <= i < |sids| ==> !(sids[i] in idx && Hidden(q, idx[sids[i]])))
  {
    PrefilterDropsOnly(idx, q, sids);
    forall i | 0 <= i < |sids|
      ensures SessionHits(idx, q, sids[i], true) == SessionHits(idx, q, sids[i], false) <==>
              !(sids[i] in idx && Hidden(q, idx[sids[i]]))
    {
      SessionIsExactIffNotHidden(idx, q, sids[i]);
    }
  }

  /** When all turns carry timestamps, the search returns the same hits in the same
      order, limit included, as a scan without the pre-filter. */
  lemma {:induction false} PrefilterIsExact(idx: Index, q: Query, sids: seq<string>)
    requires Enclosed(idx) && AllTimestamped(idx)
    ensures Limited(q.limit, AllHits(idx, q, sids, true)) == Limited(q.limit, AllHits(idx, q, sids, false))
  {
    PrefilterIsExactIffNothingHidden(idx, q, sids);
    forall i | 0 <= i < |sids| ensures !(sids[i] in idx && Hidden(q, idx[sids[i]])) {
      if sids[i] in idx {
        var turns := idx[sids[i]].session.turns;
        assert forall j :: 0 <= j < |turns| ==> turns[j] in turns;
      }
    }
  }

  // --------------------------------------------------------------- with a limit

  predicate Distinct(sids: seq<string>) { forall a, b :: 0 <= a < b < |sids| ==> sids[a] != sids[b] }

  lemma {:induction false} CandidatesAreDistinct(idx: Index, q: Query, sids: seq<string>)
    requires Candidates(idx, q, sids)
    ensures Distinct(sids)
  {
    if q.sessionId == "" {
      forall a, b | 0 <= a < b < |sids| ensures sids[a] != sids[b] { LessIrreflexive(sids[a]); }
    }
  }

  ghost predicate HiddenAt(idx: Index, q: Query, sids: seq<string>, i: nat) {
    i < |sids| && sids[i] in idx && Hidden(q, idx[sids[i]])
  }

  /** No hidden hit is among the first limit hits of the plain scan: a hidden session
      comes only after that many. */
  ghost predicate HiddenOnlyLate(idx: Index, q: Query, sids: seq<string>) {
    forall i: nat :: HiddenAt(idx, q, sids, i) ==> q.limit > 0 && |AllHits(idx, q, sids[..i], false)| >= q.limit
  }

  lemma {:induction false} TurnHitsNameSession(q: Query, sid: string, e: Entry, turns: seq<Turn>)
    ensures forall x :: 0 <= x < |TurnHits(q, sid, e, turns)| ==> TurnHits(q, sid, e, turns)[x].sessionId == sid
  {
    if turns != [] { TurnHitsNameSession(q, sid, e, turns[..|turns| - 1]); }
  }

  lemma {:induction false} SessionHitsNameSession(idx: Index, q: Query, sid: string, prefilter: bool)
    ensures var hits := SessionHits(idx, q, sid, prefilter); forall x :: 0 <= x < |hits| ==> hits[x].sessionId == sid
  {
    if sid in idx { TurnHitsNameSession(q, sid, idx[sid], idx[sid].session.turns); }
  }

  /** Hits beyond those of the first i sessions come from later sessions. */
  lemma {:induction false} LaterHits(idx: Index, q: Query, sids: seq<string>, i: nat, prefilter: bool, x: nat)
    requires i <= |sids| && |AllHits(idx, q, sids[..i], prefilter)| <= x < |AllHits(idx, q, sids, prefilter)|
    ensures exists j :: i <= j < |sids| && AllHits(idx, q, sids, prefilter)[x].sessionId == sids[j]
  {
    assert sids[..|sids|] == sids;
    var front, last := sids[..|sids| - 1], sids[|sids| - 1];
    SessionHitsNameSession(idx, q, last, prefilter);
    var before := AllHits(idx, q, front, prefilter);
    assert front[..i] == sids[..i];
    if x < |before| {
      LaterHits(idx, q, front, i, prefilter, x);
      var j :| i <= j < |front| && before[x].sessionId == front[j];
      assert sids[j] == front[j];
    } else {
      assert AllHits(idx, q, sids, prefilter)[x].sessionId == sids[|sids| - 1];
    }
  }

  lemma {:induction false} FirstHidden(idx: Index, q: Query, sids: seq<string>) returns (i: nat)
    ensures i <= |sids| && (i < |sids| ==> HiddenAt(idx, q, sids, i))
    ensures forall j: nat :: j < i ==> !HiddenAt(idx, q, sids, j)
  {
    i := 0;
    while i < |sids| && !HiddenAt(idx, q, sids, i)
      invariant i <= |sids| && forall j: nat :: j < i ==> !HiddenAt(idx, q, sids, j)
    {
      i := i + 1;
    }
  }

  /** Up to the first hidden session both scans agree. */
  lemma {:induction false} SameBeforeHidden(idx: Index, q: Query, sids: seq<string>, i: nat)
    requires Enclosed(idx) && i <= |sids| && forall j: nat :: j < i ==> !HiddenAt(idx, q, sids, j)
    ensures AllHits(idx, q, sids[..i], true) == AllHits(idx, q, sids[..i], false)
  {
    PrefilterIsExactIffNothingHidden(idx, q, sids[..i]);
    forall j | 0 <= j < i ensures !(sids[..i][j] in idx && Hidden(q, idx[sids[..i][j]])) {
      assert !HiddenAt(idx, q, sids, j);
    }
  }

  /** A hidden session has a hit in the plain scan and none in the other. */
  lemma {:induction false} HiddenHits(idx: Index, q: Query, sid: string)
    requires Enclosed(idx) && sid in idx && Hidden(q, idx[sid])
    ensures SessionHits(idx, q, sid, true) == [] && SessionHits(idx, q, sid, false) != []
  {
    SessionIsExactIffNotHidden(idx, q, sid);
  }

  lemma {:induction false} EarlyHiddenDiffers(idx: Index, q: Query, sids: seq<string>, i: nat)
    requires Enclosed(idx) && Distinct(sids) && HiddenAt(idx, q, sids, i)
    requires forall j: nat :: j < i ==> !HiddenAt(idx, q, sids, j)
    requires q.limit == 0 || |AllHits(idx, q, sids[..i], false)| < q.limit
    ensures Limited(q.limit, AllHits(idx, q, sids, true)) != Limited(q.limit, AllHits(idx, q, sids, false))
  {
    var m, next := |AllHits(idx, q, sids[..i], false)|, sids[..i + 1];
    var plain, filtered := AllHits(idx, q, sids, false), AllHits(idx, q, sids, true);
    SameBeforeHidden(idx, q, sids, i);
    HiddenHits(idx, q, sids[i]);
    assert next[..i] == sids[..i] && next[i] == sids[i];
    AllHitsPrefix(idx, q, sids, i + 1, false);
    SessionHitsNameSession(idx, q, sids[i], false);
    assert AllHits(idx, q, next, false)[m] == plain[m] && plain[m].sessionId == sids[i];
    if m < |filtered| {
      assert |AllHits(idx, q, next, true)| == m;
      LaterHits(idx, q, sids, i + 1, true, m);
      assert filtered[m].sessionId != sids[i];
      assert Limited(q.limit, filtered)[m] == filtered[m] && Limited(q.limit, plain)[m] == plain[m];
    } else {
      assert |Limited(q.limit, filtered)| <= m < |Limited(q.limit, plain)|;
    }
  }

  lemma {:induction false} SamePrefixLimited(limit: nat, p: seq<Hit>, a: seq<Hit>, b: seq<Hit>)
    requires p <= a && p <= b && limit > 0 && |p| >= limit
    ensures Limited(limit, a) == Limited(limit, b)
  {
    assert a[..limit] == p[..limit] && b[..limit] == p[..limit];
    if |a| == limit { assert a[..limit] == a; }
    if |b| == limit { assert b[..limit] == b; }
  }

  /** With or without a limit, the pre-filter returns what the plain scan returns if
      and only if no hidden hit is among the hits the plain scan returns. */
  lemma {:induction false} LimitedIsExactIffHiddenOnlyLate(idx: Index, q: Query, sids: seq<string>)
    requires Enclosed(idx) && Distinct(sids)
    ensures Limited(q.limit, AllHits(idx, q, sids, true)) == Limited(q.limit, AllHits(idx, q, sids, false)) <==>
            HiddenOnlyLate(idx, q, sids)
  {
    var i := FirstHidden(idx, q, sids);
    SameBeforeHidden(idx, q, sids, i);
    if i == |sids| {
      assert sids[..i] == sids;
      assert forall j: nat :: !HiddenAt(idx, q, sids, j);
    } else if q.limit == 0 || |AllHits(idx, q, sids[..i], false)| < q.limit {
      EarlyHiddenDiffers(idx, q, sids, i);
    } else {
      AllHitsPrefix(idx, q, sids, i, true);
      AllHitsPrefix(idx, q, sids, i, false);
      SamePrefixLimited(q.limit, AllHits(idx, q, sids[..i], false), AllHits(idx, q, sids, true), AllHits(idx, q, sids, false));
      LaterStillLate(idx, q, sids, i);
    }
  }

  lemma {:induction false} LaterStillLate(idx: Index, q: Query, sids: seq<string>, i: nat)
    requires i < |sids| && q.limit > 0 && |AllHits(idx, q, sids[..i], false)| >= q.limit
    requires forall j: nat :: j < i ==> !HiddenAt(idx, q, sids, j)
    ensures HiddenOnlyLate(idx, q, sids)
  {
    forall j: nat | HiddenAt(idx, q, sids, j) ensures |AllHits(idx, q, sids[..j], false)| >= q.limit {
      assert sids[..j][..i] == sids[..i];
      AllHitsPrefix(idx, q, sids[..j], i, false);
    }
  }

  // ------------------------------------------------- both parsers keep exact bounds

  lemma {:induction false} IngestKeepsExactBounds(s: Accum, k: string, items: seq<Item>)
    requires Exact(s.entry.session.head.bounds, s.entry.session.turns)
    ensures var g := IngestSessions.Grown(s, k, items); Exact(g.entry.session.head.bounds, g.entry.session.turns)
    decreases |items|
  {
    if items != [] {
      var item := items[0];
      if item.key == k && item.dedup !in s.seen {
        WidenKeepsExact(s.entry.session.head.bounds, s.entry.session.turns,
                        Ingest.TurnOf(item, |s.entry.session.turns|));
      }
      IngestKeepsExactBounds(if item.key == k then AddItem(s, item) else s, k, items[1..]);
    }
  }

  /** Whatever either parser puts into the index has exact bounds. */
  lemma {:induction false} ParsersKeepExactBounds(
    cfg: Config, data: seq<Lines.Byte>, mtime: Time, source: string, k: string, items: seq<Item>)
    ensures var full := SessionIndexing.FullIndex(cfg, data, mtime); Exact(full.head.bounds, full.turns)
    ensures var whole := IngestSessions.Whole(items, k, source).entry.session; Exact(whole.head.bounds, whole.turns)
  {
    FullParseIsSound(cfg, data);
    IngestKeepsExactBounds(Accum(NewEntry(source), {}, 0), k, items);
  }
}
