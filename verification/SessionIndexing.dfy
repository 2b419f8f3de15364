/** Full and incremental indexing of one session file
    (internal/conversations/provider.go:1353-1633). */
module SessionIndexing {
  import opened Prelude
  import opened Lines
  import opened SessionParser

  const WINDOW: nat := 4096
  const TWO_SECONDS: nat := 2_000_000_000

  /** A session's projection. The hash of the window below the watermark is
      injective, so the window stands for it; `tail` is None where the source
      stores the empty string. */
  datatype Indexed = Indexed(
    head: Head, turns: seq<Turn>, turnCount: nat, offset: nat, size: nat, mtime: Time, tail: Option<Bytes>)

  function Fingerprint(data: Bytes, off: nat): Option<Bytes> {
    if off == 0 || off > |data| then None
    else Some(data[if off < WINDOW then 0 else off - WINDOW..off])
  }

  /** `indexSession`. */
  function FullIndex(cfg: Config, data: Bytes, mtime: Time): Indexed {
    var st := Parse(cfg, NoHead, data);
    Indexed(st.head, st.turns, |st.turns|, st.good, |data|, mtime, Fingerprint(data, st.good))
  }

  /** The checks `indexSessionIncremental` makes before trusting the watermark. */
  predicate Resumable(data: Bytes, mtime: Time, prev: Indexed) {
    && 0 < prev.offset <= |data|
    && |prev.turns| == prev.turnCount
    && prev.tail.Some?
    && Fingerprint(data, prev.offset) == prev.tail
    && (|data| == prev.offset ==>
          (if mtime < prev.mtime then prev.mtime - mtime else mtime - prev.mtime) <= TWO_SECONDS)
  }

  function Uuids(turns: seq<Turn>): set<string> {
    set i | 0 <= i < |turns| && turns[i].uuid != "" :: turns[i].uuid
  }

  /** The callback: turns whose uuid is neither indexed nor already kept. */
  function Kept(indexed: set<string>, turns: seq<Turn>): seq<Turn> {
    if turns == [] then []
    else
      var front, t := Kept(indexed, turns[..|turns| - 1]), turns[|turns| - 1];
      if t.uuid != "" && (t.uuid in indexed || t.uuid in Uuids(front)) then front else front + [t]
  }

  function Renumber(turns: seq<Turn>): (r: seq<Turn>)
    ensures |r| == |turns|
    ensures forall i :: 0 <= i < |r| ==> r[i] == turns[i].(turnIndex := i)
  {
    seq(|turns|, i requires 0 <= i < |turns| => turns[i].(turnIndex := i))
  }

  function ResumedIndex(cfg: Config, data: Bytes, mtime: Time, prev: Indexed): Indexed
    requires Resumable(data, mtime, prev)
  {
    var st := Parse(cfg, prev.head, data[prev.offset..]);
    var turns := Renumber(prev.turns + Kept(Uuids(prev.turns), st.turns));
    var offset := prev.offset + st.good;
    Indexed(st.head, turns, |turns|, offset, |data|, mtime, Fingerprint(data, offset))
  }

  /** One reconcile pass over the file: resumed when asked and possible, full
      otherwise. */
  datatype Pass = Pass(data: Bytes, mtime: Time, resume: bool)

  function RunPass(cfg: Config, prev: Indexed, p: Pass): Indexed {
    if p.resume && Resumable(p.data, p.mtime, prev) then ResumedIndex(cfg, p.data, p.mtime, prev)
    else FullIndex(cfg, p.data, p.mtime)
  }

  function RunPasses(cfg: Config, passes: seq<Pass>): Indexed
    requires passes != []
  {
    var p := passes[|passes| - 1];
    if |passes| == 1 then FullIndex(cfg, p.data, p.mtime)
    else RunPass(cfg, RunPasses(cfg, passes[..|passes| - 1]), p)
  }

  // ---------------------------------------------------------- the two methods

  method IndexSession(cfg: Config, data: Bytes, mtime: Time) returns (r: Indexed)
    ensures r == FullIndex(cfg, data, mtime)
  {
    var st := ParseSession(cfg, NoHead, data);
    r := Indexed(st.head, st.turns, |st.turns|, st.good, |data|, mtime, Fingerprint(data, st.good));
  }

  /** Declines exactly when there is no watermark within the file, the turns read
      are not as many as recorded, a byte of the window below the watermark is not
      what was recorded there, or a file that did not grow was touched. */
  method IndexSessionIncremental(cfg: Config, data: Bytes, mtime: Time, prev: Indexed) returns (r: Option<Indexed>)
    ensures r == if Resumable(data, mtime, prev) then Some(ResumedIndex(cfg, data, mtime, prev)) else None
    ensures r.Some? <==>
            && 0 < prev.offset <= |data| && |prev.turns| == prev.turnCount
            && prev.tail.Some? && |prev.tail.value| == (if prev.offset < 4096 then prev.offset else 4096)
            && (forall i :: 0 <= i < |prev.tail.value| ==> data[prev.offset - |prev.tail.value| + i] == prev.tail.value[i])
            && (|data| == prev.offset ==> mtime <= prev.mtime + 2_000_000_000 && prev.mtime <= mtime + 2_000_000_000)
  {
    WindowMatches(data, prev.offset, prev.tail);
    if prev.offset == 0 || prev.offset > |data| { return None; }
    if |prev.turns| != prev.turnCount { return None; }
    if prev.tail.None? { return None; }
    if Fingerprint(data, prev.offset) != prev.tail { return None; }
    if |data| == prev.offset {
      var diff := if mtime < prev.mtime then prev.mtime - mtime else mtime - prev.mtime;
      if diff > TWO_SECONDS { return None; }
    }
    var st := ParseSession(cfg, prev.head, data[prev.offset..]);
    var added := Merged(prev.turns, st.turns);
    var turns := Renumbered(prev.turns + added);
    var offset := prev.offset + st.good;
    r := Some(Indexed(st.head, turns, |turns|, offset, |data|, mtime, Fingerprint(data, offset)));
  }

  /** The window is compared byte by byte. */
  lemma WindowMatches(data: Bytes, off: nat, tail: Option<Bytes>)
    ensures 0 < off <= |data| && tail.Some? ==>
              (Fingerprint(data, off) == tail <==>
                && |tail.value| == (if off < 4096 then off else 4096)
                && forall i :: 0 <= i < |tail.value| ==> data[off - |tail.value| + i] == tail.value[i])
  {
    if 0 < off <= |data| && tail.Some? {
      var start := if off < 4096 then 0 else off - 4096;
      assert Fingerprint(data, off) == Some(data[start..off]);
      if |tail.value| == off - start {
        assert forall i :: 0 <= i < |tail.value| ==> data[start..off][i] == data[start + i];
        if forall i :: 0 <= i < |tail.value| ==> data[start + i] == tail.value[i] {
          assert data[start..off] == tail.value;
        }
      }
    }
  }

  method Merged(prevTurns: seq<Turn>, tail: seq<Turn>) returns (added: seq<Turn>)
    ensures added == Kept(Uuids(prevTurns), tail)
  {
    var seen := {};
    for i := 0 to |prevTurns|
      invariant seen == Uuids(prevTurns[..i])
    {
      UuidsGrow(prevTurns[..i], prevTurns[i]);
      assert prevTurns[..i + 1] == prevTurns[..i] + [prevTurns[i]];
      if prevTurns[i].uuid != "" { seen := seen + {prevTurns[i].uuid}; }
    }
    assert prevTurns[..|prevTurns|] == prevTurns;
    added := [];
    for i := 0 to |tail|
      invariant added == Kept(Uuids(prevTurns), tail[..i])
      invariant seen == Uuids(prevTurns) + Uuids(added)
    {
      var t := tail[i];
      assert tail[..i + 1][..i] == tail[..i];
      UuidsGrow(added, t);
      if t.uuid != "" && t.uuid in seen {
      } else {
        if t.uuid != "" { seen := seen + {t.uuid}; }
        added := added + [t];
      }
    }
    assert tail[..|tail|] == tail;
  }

  method Renumbered(turns: seq<Turn>) returns (r: seq<Turn>)
    ensures r == Renumber(turns)
  {
    r := turns;
    for i := 0 to |turns|
      invariant |r| == |turns|
      invariant forall j :: 0 <= j < i ==> r[j] == turns[j].(turnIndex := j)
      invariant forall j :: i <= j < |r| ==> r[j] == turns[j]
    {
      r := r[i := r[i].(turnIndex := i)];
    }
  }

  lemma {:induction false} UuidsGrow(turns: seq<Turn>, t: Turn)
    ensures Uuids(turns + [t]) == if t.uuid == "" then Uuids(turns) else Uuids(turns) + {t.uuid}
  {
    var all := turns + [t];
    assert all[|turns|] == t;
    forall u ensures u in Uuids(all) <==> u in Uuids(turns) || (t.uuid != "" && u == t.uuid) {
      if u in Uuids(turns) {
        var i :| 0 <= i < |turns| && turns[i].uuid == u;
        assert all[i].uuid == u;
      }
    }
  }

  // ------------------------------------------ the watermark is a line boundary

  /** A line the watermark never passes. */
  predicate Unread(cfg: Config, token: Bytes) {
    token != [] && cfg.decode(token).None?
  }

  /** The file is complete, or its unterminated last line did not decode. */
  predicate TornTailUnread(cfg: Config, data: Bytes) {
    AtBoundary(data) || Unread(cfg, DropCR(data[LastComplete(data)..]))
  }

  lemma ConsumeMoves(cfg: Config, st: State, line: Line)
    ensures Consume(cfg, st, line) == st || Consume(cfg, st, line).good == line.end
  {
  }

  lemma {:induction false} AdvanceEnds(data: Bytes)
    requires data != [] && AtBoundary(data)
    ensures AtBoundary(data[..Advance(data)])
  {
    if data[0] != NL {
      AdvanceEnds(data[1..]);
      assert data[1..][..Advance(data[1..])] == data[1..Advance(data)];
    }
  }

  /** The first line on its own. */
  lemma {:induction false} OneLineFold(cfg: Config, st: State, data: Bytes, base: nat) returns (n: nat, line: Bytes)
    requires data != [] && AtBoundary(data)
    ensures 0 < n <= |data| && line == data[..n] && AtBoundary(line)
    ensures var st1 := FoldLines(Step(cfg), st, line, base); st1 == st || st1.good == base + n
  {
    n := Advance(data);
    line := data[..n];
    AdvanceEnds(data);
    AdvanceWithin(line, data[n..]);
    assert data == line + data[n..];
    assert Advance(line) == n && line[n..] == [];
    FoldUnfolds(Step(cfg), st, line, base, n, Token(line), []);
    ConsumeMoves(cfg, st, Line(Token(line), base + n));
  }

  lemma {:induction false} ParseOfMore(cfg: Config, a: Bytes, b: Bytes, c: Bytes)
    requires AtBoundary(a) && c == a + b
    ensures Parse(cfg, NoHead, c) == FoldLines(Step(cfg), Parse(cfg, NoHead, a), b, |a|)
  {
    FoldResumes(Step(cfg), Start(NoHead), a, b, c, 0, |a|);
  }

  lemma NextBoundary(a: Bytes, rest: Bytes, n: nat, line: Bytes, data: Bytes)
    requires data == a + rest && n <= |rest| && line == rest[..n] && n > 0 && AtBoundary(line)
    ensures data[..|a| + n] == a + line && AtBoundary(data[..|a| + n])
  {
  }

  /** One more line after the boundary i. */
  lemma {:induction false} OneMoreLine(cfg: Config, data: Bytes, i: nat) returns (j: nat)
    requires AtBoundary(data) && i < |data| && AtBoundary(data[..i])
    ensures i < j <= |data| && AtBoundary(data[..j])
    ensures var st, st1 := Parse(cfg, NoHead, data[..i]), Parse(cfg, NoHead, data[..j]);
            st1 == st || st1.good == j
  {
    var a, rest := data[..i], data[i..];
    assert data == a + rest;
    var st := Parse(cfg, NoHead, a);
    var n, line := OneLineFold(cfg, st, rest, i);
    j := i + n;
    NextBoundary(a, rest, n, line, data);
    ParseOfMore(cfg, a, line, data[..j]);
  }

  /** Where a scan stopped making progress: nothing past k counted. */
  lemma GoodPoint(cfg: Config, data: Bytes) returns (k: nat)
    requires AtBoundary(data)
    ensures k <= |data| && AtBoundary(data[..k])
    ensures Parse(cfg, NoHead, data[..k]) == Parse(cfg, NoHead, data)
    ensures Parse(cfg, NoHead, data).good == k
  {
    k := 0;
    var i := 0;
    while i < |data|
      invariant k <= i <= |data| && AtBoundary(data[..i]) && AtBoundary(data[..k])
      invariant Parse(cfg, NoHead, data[..k]) == Parse(cfg, NoHead, data[..i])
      invariant Parse(cfg, NoHead, data[..k]).good == k
    {
      var j := OneMoreLine(cfg, data, i);
      if Parse(cfg, NoHead, data[..j]) != Parse(cfg, NoHead, data[..i]) { k := j; }
      i := j;
    }
    assert data[..i] == data;
  }

  /** Lines that do not decode change nothing. */
  lemma {:induction false} UnreadTail(cfg: Config, st: State, tail: Bytes, base: nat)
    requires tail != [] && Unread(cfg, DropCR(tail)) && forall i :: 0 <= i < |tail| ==> tail[i] != NL
    ensures FoldLines(Step(cfg), st, tail, base) == st
  {
    OneLine(tail);
    assert tail[..|tail|] == tail;
    FoldUnfolds(Step(cfg), st, tail, base, |tail|, Token(tail), []);
  }

  lemma {:induction false} OneLine(data: Bytes)
    requires forall i :: 0 <= i < |data| ==> data[i] != NL
    ensures Advance(data) == |data|
  {
    if data != [] { OneLine(data[1..]); }
  }

  lemma {:induction false} SplitAtLastLine(data: Bytes) returns (whole: Bytes, tail: Bytes)
    ensures data == whole + tail && AtBoundary(whole) && tail == data[LastComplete(data)..]
    ensures tail == [] <==> AtBoundary(data)
    ensures forall i :: 0 <= i < |tail| ==> tail[i] != NL
  {
    var off := LastComplete(data);
    whole, tail := data[..off], data[off..];
    LastCompleteIsGreatest(data);
    assert data[..|data|] == data;
    forall i | 0 <= i < |tail| ensures tail[i] != NL {
      assert !AtBoundary(data[..off + i + 1]) && data[..off + i + 1][off + i] == tail[i];
    }
  }

  /** An unread tail leaves the parse of the complete lines. */
  lemma {:induction false} TornTailChangesNothing(cfg: Config, data: Bytes) returns (whole: Bytes)
    requires TornTailUnread(cfg, data)
    ensures whole <= data && AtBoundary(whole) && Parse(cfg, NoHead, data) == Parse(cfg, NoHead, whole)
  {
    var tail;
    whole, tail := SplitAtLastLine(data);
    if tail == [] {
      assert whole == data;
    } else {
      ParseOfMore(cfg, whole, tail, data);
      UnreadTail(cfg, Parse(cfg, NoHead, whole), tail, |whole|);
    }
  }

  /** The recorded watermark is a line boundary, and parsing the bytes below it
      alone gives the whole file's result: no decodable line lies beyond it, so a
      torn last line is never skipped. */
  lemma {:induction false} WatermarkCutsAtLine(cfg: Config, data: Bytes)
    requires TornTailUnread(cfg, data)
    ensures var st := Parse(cfg, NoHead, data);
            && st.good <= |data| && AtBoundary(data[..st.good])
            && Parse(cfg, NoHead, data[..st.good]) == st
  {
    var whole := TornTailChangesNothing(cfg, data);
    var k := GoodPoint(cfg, whole);
    assert whole[..k] == data[..k];
  }

  // -------------------------------------------------- resumed equals full

  /** A uuid met again past the watermark belongs to an indexed turn and its
      record does not widen the bounds (the same timestamp never does). */
  predicate RepeatIsHarmless(cfg: Config, below: State, token: Bytes) {
    token != [] && cfg.decode(token).Some? ==>
      var body := cfg.decode(token).value.body;
      body.Message? && body.uuid != "" && body.uuid in below.seen && body.content.Some? ==>
        && body.uuid in Uuids(below.turns)
        && (body.timestamp == 0 || Holds(below.head.bounds, body.timestamp))
  }

  predicate RepeatsAreHarmless(cfg: Config, below: State, tail: Bytes)
    decreases |tail|
  {
    tail != [] ==>
      RepeatIsHarmless(cfg, below, Token(tail)) && RepeatsAreHarmless(cfg, below, tail[Advance(tail)..])
  }

  /** full is where a parse from byte 0 stands; part is where the parse of the
      tail stands, with the same lines read past the watermark off. */
  ghost predicate Aligned(below: State, off: nat, full: State, part: State) {
    && full.head == part.head
    && full.turns == Renumber(below.turns + Kept(Uuids(below.turns), part.turns))
    && full.seen == below.seen + part.seen
    && full.good == off + part.good
    && Uuids(part.turns) <= part.seen
    && (forall t :: Holds(below.head.bounds, t) ==> Holds(part.head.bounds, t))
  }

  lemma WidenIsIdle(b: Bounds, t: Time)
    requires Proper(b)
    ensures Widen(b, t) == b <==> t == 0 || Holds(b, t)
  {
  }

  lemma {:induction false} KeptOfMore(indexed: set<string>, turns: seq<Turn>, t: Turn)
    ensures Kept(indexed, turns + [t]) ==
              if t.uuid != "" && (t.uuid in indexed || t.uuid in Uuids(Kept(indexed, turns)))
              then Kept(indexed, turns) else Kept(indexed, turns) + [t]
  {
    assert (turns + [t])[..|turns|] == turns;
  }

  lemma {:induction false} KeptUuids(indexed: set<string>, turns: seq<Turn>)
    ensures Uuids(Kept(indexed, turns)) <= Uuids(turns)
  {
    if turns != [] {
      var front, t := turns[..|turns| - 1], turns[|turns| - 1];
      KeptUuids(indexed, front);
      UuidsGrow(front, t);
      UuidsGrow(Kept(indexed, front), t);
      assert turns == front + [t];
    }
  }

  lemma {:induction false} RenumberMore(turns: seq<Turn>, kept: seq<Turn>, t: Turn, u: Turn)
    requires u == t.(turnIndex := |turns| + |kept|)
    ensures Renumber(turns + (kept + [t])) == Renumber(turns + kept) + [u]
  {
    assert turns + (kept + [t]) == (turns + kept) + [t];
  }

  /** A record the full parse skips: the tail parse emits it, the merge drops it. */
  lemma {:induction false} AlignedRepeat(cfg: Config, below: State, off: nat, full: State, part: State, body: Body)
    requires Aligned(below, off, full, part) && Proper(part.head.bounds)
    requires body.Message? && body.content.Some? && body.uuid != "" && body.uuid in below.seen && body.uuid !in part.seen
    requires body.uuid in Uuids(below.turns) && (body.timestamp == 0 || Holds(below.head.bounds, body.timestamp))
    ensures Aligned(below, off, full, ConsumeBody(cfg, part, body))
    ensures ConsumeBody(cfg, part, body).head == part.head
  {
    var t := TurnOf(cfg, body, |part.turns|);
    KeptOfMore(Uuids(below.turns), part.turns, t);
    UuidsGrow(part.turns, t);
    WidenIsIdle(part.head.bounds, body.timestamp);
  }

  /** A record both parses turn into a turn. */
  lemma {:induction false} AlignedNew(cfg: Config, below: State, off: nat, full: State, part: State, body: Body)
    requires Aligned(below, off, full, part) && Uuids(below.turns) <= below.seen
    requires body.Message? && body.content.Some? && (body.uuid == "" || body.uuid !in full.seen)
    ensures Aligned(below, off, ConsumeBody(cfg, full, body), ConsumeBody(cfg, part, body))
  {
    var ids := Uuids(below.turns);
    var kept, t := Kept(ids, part.turns), TurnOf(cfg, body, |part.turns|);
    KeptUuids(ids, part.turns);
    KeptOfMore(ids, part.turns, t);
    UuidsGrow(part.turns, t);
    assert Kept(ids, part.turns + [t]) == kept + [t];
    RenumberMore(below.turns, kept, t, TurnOf(cfg, body, |full.turns|));
  }

  lemma {:induction false} AlignedBody(cfg: Config, below: State, off: nat, full: State, part: State, body: Body)
    requires Aligned(below, off, full, part) && Proper(part.head.bounds)
    requires Uuids(below.turns) <= below.seen
    requires body.Message? && body.uuid != "" && body.uuid in below.seen && body.content.Some? ==>
               body.uuid in Uuids(below.turns) && (body.timestamp == 0 || Holds(below.head.bounds, body.timestamp))
    ensures Aligned(below, off, ConsumeBody(cfg, full, body), ConsumeBody(cfg, part, body))
    ensures Proper(ConsumeBody(cfg, part, body).head.bounds)
  {
    if body.Message? && body.content.Some? && (body.uuid == "" || body.uuid !in part.seen) {
      if body.uuid != "" && body.uuid in below.seen {
        AlignedRepeat(cfg, below, off, full, part, body);
      } else {
        AlignedNew(cfg, below, off, full, part, body);
      }
    }
  }

  lemma {:induction false} AlignedLine(
    cfg: Config, below: State, off: nat, full: State, part: State, token: Bytes, end: nat)
    returns (full': State, part': State)
    requires Aligned(below, off, full, part) && Proper(part.head.bounds)
    requires Uuids(below.turns) <= below.seen && RepeatIsHarmless(cfg, below, token)
    ensures full' == Step(cfg)(full, Line(token, off + end)) && part' == Step(cfg)(part, Line(token, end))
    ensures Aligned(below, off, full', part') && Proper(part'.head.bounds)
  {
    full', part' := Consume(cfg, full, Line(token, off + end)), Consume(cfg, part, Line(token, end));
    if token != [] && cfg.decode(token).Some? {
      var rec := cfg.decode(token).value;
      var entry := if part.head.entrypoint == "" then rec.entrypoint else part.head.entrypoint;
      var full1 := full.(good := off + end, head := full.head.(entrypoint := entry));
      var part1 := part.(good := end, head := part.head.(entrypoint := entry));
      assert Aligned(below, off, full1, part1);
      AlignedBody(cfg, below, off, full1, part1, rec.body);
    }
  }

  lemma {:induction false} AlignedFirst(
    cfg: Config, below: State, off: nat, full: State, part: State, tail: Bytes, base: nat)
    returns (full1: State, part1: State, rest: Bytes, n: nat)
    requires tail != [] && Aligned(below, off, full, part) && Proper(part.head.bounds)
    requires Uuids(below.turns) <= below.seen && RepeatsAreHarmless(cfg, below, tail)
    ensures Aligned(below, off, full1, part1) && Proper(part1.head.bounds)
    ensures RepeatsAreHarmless(cfg, below, rest) && |rest| < |tail|
    ensures FoldLines(Step(cfg), full, tail, off + base) == FoldLines(Step(cfg), full1, rest, off + (base + n))
    ensures FoldLines(Step(cfg), part, tail, base) == FoldLines(Step(cfg), part1, rest, base + n)
  {
    var token;
    n, token, rest := HarmlessFirst(cfg, below, tail);
    full1, part1 := AlignedLine(cfg, below, off, full, part, token, base + n);
    FoldUnfoldsTo(Step(cfg), full, tail, off + base, n, token, rest, full1, off + (base + n));
    FoldUnfoldsTo(Step(cfg), part, tail, base, n, token, rest, part1, base + n);
  }

  lemma HarmlessFirst(cfg: Config, below: State, tail: Bytes) returns (n: nat, token: Bytes, rest: Bytes)
    requires tail != [] && RepeatsAreHarmless(cfg, below, tail)
    ensures n == Advance(tail) && token == Token(tail) && rest == tail[n..] && |rest| < |tail|
    ensures RepeatIsHarmless(cfg, below, token) && RepeatsAreHarmless(cfg, below, rest)
  {
    n, token := Advance(tail), Token(tail);
    rest := tail[n..];
  }

  lemma {:induction false} AlignedTail(
    cfg: Config, below: State, off: nat, full: State, part: State, tail: Bytes, base: nat)
    returns (fullEnd: State, partEnd: State)
    requires Aligned(below, off, full, part) && Proper(part.head.bounds)
    requires Uuids(below.turns) <= below.seen && RepeatsAreHarmless(cfg, below, tail)
    ensures fullEnd == FoldLines(Step(cfg), full, tail, off + base)
    ensures partEnd == FoldLines(Step(cfg), part, tail, base)
    ensures Aligned(below, off, fullEnd, partEnd)
    decreases |tail|
  {
    if tail == [] {
      FoldOfNothing(Step(cfg), full, tail, off + base);
      FoldOfNothing(Step(cfg), part, tail, base);
      fullEnd, partEnd := full, part;
    } else {
      var full1, part1, rest, n := AlignedFirst(cfg, below, off, full, part, tail, base);
      fullEnd, partEnd := AlignedTail(cfg, below, off, full1, part1, rest, base + n);
    }
  }

  predicate IsBreak(brk: Bytes) { brk == [NL] || brk == [CR, NL] }

  /** What was appended starts with the end of prev's last line. */
  predicate BreaksLine(prev: Bytes, next: Bytes)
    requires |prev| < |next|
  {
    next[|prev|] == NL ||
    (|prev| + 1 < |next| && next[|prev|] == CR && next[|prev| + 1] == NL && (prev == [] || prev[|prev| - 1] != CR))
  }

  /** An unterminated last line was not read yet, or it was a whole record and
      nothing but its line end follows it. */
  predicate TailContinues(cfg: Config, prev: Bytes, next: Bytes)
    requires prev <= next
  {
    TornTailUnread(cfg, prev) || |prev| == |next| || BreaksLine(prev, next)
  }

  /** What the file must satisfy for one pass over `next` after `prev` was read. */
  predicate AppendIsSafe(cfg: Config, prev: Bytes, next: Bytes) {
    && prev <= next
    && TailContinues(cfg, prev, next)
    && var below := Parse(cfg, NoHead, prev);
       below.good <= |next| ==> RepeatsAreHarmless(cfg, below, next[below.good..])
  }

  lemma {:induction false} SoundUuids(st: State)
    requires Sound(st)
    ensures Uuids(st.turns) <= st.seen
    ensures Renumber(st.turns + Kept(Uuids(st.turns), [])) == st.turns
  {
    assert st.turns + [] == st.turns;
    forall u | u in Uuids(st.turns) ensures u in st.seen {
      var i :| 0 <= i < |st.turns| && st.turns[i].uuid == u;
      assert st.turns[i] in st.turns;
    }
  }

  /** Reading on from the watermark reaches the state of a parse from byte 0. */
  lemma {:induction false} TailReachesFull(cfg: Config, prev: Bytes, next: Bytes) returns (full: State, part: State)
    requires AppendIsSafe(cfg, prev, next)
    ensures var below := Parse(cfg, NoHead, prev);
            && below.good <= |prev|
            && full == Parse(cfg, NoHead, next) && part == Parse(cfg, below.head, next[below.good..])
            && Aligned(below, below.good, full, part)
  {
    var below := Parse(cfg, NoHead, prev);
    var off, b := CutAtWatermark(cfg, prev, next);
    StartsAligned(cfg, prev, below);
    full, part := AlignedWhole(cfg, below, off, b);
  }

  lemma {:induction false} AlignedWhole(cfg: Config, below: State, off: nat, b: Bytes) returns (full: State, part: State)
    requires Aligned(below, off, below, Start(below.head)) && Proper(below.head.bounds)
    requires Uuids(below.turns) <= below.seen && RepeatsAreHarmless(cfg, below, b)
    ensures full == FoldLines(Step(cfg), below, b, off) && part == Parse(cfg, below.head, b)
    ensures Aligned(below, off, full, part)
  {
    full, part := AlignedTail(cfg, below, off, below, Start(below.head), b, 0);
  }

  lemma {:induction false} StartsAligned(cfg: Config, prev: Bytes, below: State)
    requires below == Parse(cfg, NoHead, prev)
    ensures Aligned(below, below.good, below, Start(below.head)) && Proper(below.head.bounds)
    ensures Uuids(below.turns) <= below.seen
  {
    FullParseIsSound(cfg, prev);
    SoundUuids(below);
  }

  /** Reading on from the watermark's state reaches the state of a parse from byte
      0, at a line boundary and behind a record still without its newline alike. */
  lemma {:induction false} CutAtWatermark(cfg: Config, prev: Bytes, next: Bytes) returns (off: nat, b: Bytes)
    requires prev <= next && TailContinues(cfg, prev, next)
    ensures off == Parse(cfg, NoHead, prev).good && off <= |prev| && b == next[off..]
    ensures Parse(cfg, NoHead, next) == FoldLines(Step(cfg), Parse(cfg, NoHead, prev), b, off)
  {
    if TornTailUnread(cfg, prev) {
      WatermarkCutsAtLine(cfg, prev);
      off := Parse(cfg, NoHead, prev).good;
      b := next[off..];
      var a := next[..off];
      assert a == prev[..off] && next == a + b;
      ParseOfMore(cfg, a, b, next);
    } else {
      off, b := CutBehindRecord(cfg, prev, next);
    }
  }

  /** The line after a line boundary, in the parse of the whole file. */
  lemma {:induction false} ParseOfLine(
    cfg: Config, whole: Bytes, line: Bytes, next: Bytes, n: nat, token: Bytes, rest: Bytes, end: nat)
    returns (after: State)
    requires AtBoundary(whole) && next == whole + line && line != []
    requires n == Advance(line) && token == Token(line) && rest == line[n..] && end == |whole| + n
    ensures after == Consume(cfg, Parse(cfg, NoHead, whole), Line(token, end))
    ensures Parse(cfg, NoHead, next) == FoldLines(Step(cfg), after, rest, end)
  {
    after := FoldOneLine(cfg, Parse(cfg, NoHead, whole), line, |whole|, n, token, rest, end);
    ParseOfMore(cfg, whole, line, next);
  }

  lemma {:induction false} FoldOneLine(
    cfg: Config, st: State, line: Bytes, base: nat, n: nat, token: Bytes, rest: Bytes, end: nat)
    returns (after: State)
    requires line != [] && n == Advance(line) && token == Token(line) && rest == line[n..] && end == base + n
    ensures after == Consume(cfg, st, Line(token, end))
    ensures FoldLines(Step(cfg), st, line, base) == FoldLines(Step(cfg), after, rest, end)
  {
    after := Step(cfg)(st, Line(token, end));
    FoldUnfoldsTo(Step(cfg), st, line, base, n, token, rest, after, end);
  }

  /** What a line that is read leaves behind does not depend on where it ends,
      except for the offset. */
  lemma ReadLineEnds(cfg: Config, st: State, token: Bytes, end: nat, later: nat)
    requires !Unread(cfg, token)
    ensures Consume(cfg, st, Line(token, end)).good == end
    ensures Consume(cfg, st, Line(token, later)) == Consume(cfg, st, Line(token, end)).(good := later)
  {
  }

  lemma {:induction false} BrokenLine(tail: Bytes, brk: Bytes, rest: Bytes)
    requires (forall i :: 0 <= i < |tail| ==> tail[i] != NL) && IsBreak(brk)
    requires brk == [CR, NL] ==> tail == [] || tail[|tail| - 1] != CR
    ensures Advance(tail + brk + rest) == |tail| + |brk| && Token(tail + brk + rest) == DropCR(tail)
    ensures (tail + brk + rest)[|tail| + |brk|..] == rest
  {
    var data, n := tail + brk + rest, |tail| + |brk|;
    AdvanceTo(data, n - 1);
    assert data[n - 1] == NL && data[..n - 1] == tail + brk[..|brk| - 1];
    if |brk| == 2 { assert brk[..1] == [CR]; } else { assert brk[..0] == []; }
  }

  lemma {:induction false} AdvanceTo(data: Bytes, i: nat)
    requires i < |data| && data[i] == NL && forall j :: 0 <= j < i ==> data[j] != NL
    ensures Advance(data) == i + 1
  {
    if i > 0 { AdvanceTo(data[1..], i - 1); }
  }

  lemma {:induction false} CutBehindRecord(cfg: Config, prev: Bytes, next: Bytes) returns (off: nat, b: Bytes)
    requires prev <= next && TailContinues(cfg, prev, next) && !TornTailUnread(cfg, prev)
    ensures off == Parse(cfg, NoHead, prev).good && off == |prev| && b == next[off..]
    ensures Parse(cfg, NoHead, next) == FoldLines(Step(cfg), Parse(cfg, NoHead, prev), b, off)
  {
    var whole, tail := RecordAtEnd(cfg, prev);
    off, b := |prev|, next[|prev|..];
    if b == [] {
      assert next == prev;
      FoldOfNothing(Step(cfg), Parse(cfg, NoHead, prev), b, off);
    } else {
      var brk, rest := BreakOf(prev, next);
      NextLineStarts(cfg, whole, tail, brk, rest, prev, next);
    }
  }

  /** A file whose unterminated last line is read. */
  lemma {:induction false} RecordAtEnd(cfg: Config, prev: Bytes) returns (whole: Bytes, tail: Bytes)
    requires !TornTailUnread(cfg, prev)
    ensures prev == whole + tail && AtBoundary(whole) && tail != [] && !Unread(cfg, DropCR(tail))
    ensures forall i :: 0 <= i < |tail| ==> tail[i] != NL
    ensures Parse(cfg, NoHead, prev) == Consume(cfg, Parse(cfg, NoHead, whole), Line(DropCR(tail), |prev|))
    ensures Parse(cfg, NoHead, prev).good == |prev|
  {
    whole, tail := SplitAtLastLine(prev);
    OneWholeLine(tail);
    var after := ParseOfLine(cfg, whole, tail, prev, |tail|, DropCR(tail), [], |prev|);
    FoldOfNothing(Step(cfg), after, [], |prev|);
    ReadLineEnds(cfg, Parse(cfg, NoHead, whole), DropCR(tail), |prev|, |prev|);
  }

  lemma {:induction false} OneWholeLine(tail: Bytes)
    requires forall i :: 0 <= i < |tail| ==> tail[i] != NL
    ensures Advance(tail) == |tail| && Token(tail) == DropCR(tail) && tail[|tail|..] == []
  {
    OneLine(tail);
    assert tail[..|tail|] == tail;
  }

  lemma {:induction false} BreakOf(prev: Bytes, next: Bytes) returns (brk: Bytes, rest: Bytes)
    requires prev <= next && |prev| < |next| && BreaksLine(prev, next)
    ensures IsBreak(brk) && next == prev + brk + rest && next[|prev|..] == brk + rest
    ensures brk == [CR, NL] ==> prev == [] || prev[|prev| - 1] != CR
  {
    if next[|prev|] == NL {
      brk, rest := [NL], next[|prev| + 1..];
    } else {
      brk, rest := [CR, NL], next[|prev| + 2..];
    }
    assert next[|prev|..] == brk + rest;
  }

  /** From the record's line on, both scans are in the same state. */
  lemma {:induction false} NextLineStarts(
    cfg: Config, whole: Bytes, tail: Bytes, brk: Bytes, rest: Bytes, prev: Bytes, next: Bytes)
    requires prev == whole + tail && AtBoundary(whole) && tail != [] && (forall i :: 0 <= i < |tail| ==> tail[i] != NL)
    requires IsBreak(brk) && (brk == [CR, NL] ==> prev[|prev| - 1] != CR) && next == prev + brk + rest
    requires !Unread(cfg, DropCR(tail))
    requires Parse(cfg, NoHead, prev) == Consume(cfg, Parse(cfg, NoHead, whole), Line(DropCR(tail), |prev|))
    ensures Parse(cfg, NoHead, next) == FoldLines(Step(cfg), Parse(cfg, NoHead, prev), brk + rest, |prev|)
  {
    var st, end := Parse(cfg, NoHead, whole), |prev| + |brk|;
    var after := FullPastLine(cfg, st, whole, tail, brk, rest, next, end);
    ReadLineEnds(cfg, st, DropCR(tail), |prev|, end);
    PartPastBreak(cfg, Parse(cfg, NoHead, prev), brk, rest, |prev|, end);
  }

  lemma {:induction false} FullPastLine(
    cfg: Config, st: State, whole: Bytes, tail: Bytes, brk: Bytes, rest: Bytes, next: Bytes, end: nat)
    returns (after: State)
    requires AtBoundary(whole) && (forall i :: 0 <= i < |tail| ==> tail[i] != NL) && tail != []
    requires IsBreak(brk) && (brk == [CR, NL] ==> tail[|tail| - 1] != CR)
    requires next == whole + tail + brk + rest && st == Parse(cfg, NoHead, whole) && end == |whole| + |tail| + |brk|
    ensures after == Consume(cfg, st, Line(DropCR(tail), end))
    ensures Parse(cfg, NoHead, next) == FoldLines(Step(cfg), after, rest, end)
  {
    BrokenLine(tail, brk, rest);
    LinesJoin(whole, tail, brk, rest);
    after := ParseOfLine(cfg, whole, tail + brk + rest, next, |tail| + |brk|, DropCR(tail), rest, end);
  }

  lemma LinesJoin(whole: Bytes, tail: Bytes, brk: Bytes, rest: Bytes)
    ensures whole + tail + brk + rest == whole + (tail + brk + rest)
  {
  }

  lemma {:induction false} PartPastBreak(cfg: Config, below: State, brk: Bytes, rest: Bytes, base: nat, end: nat)
    requires IsBreak(brk) && end == base + |brk|
    ensures FoldLines(Step(cfg), below, brk + rest, base) == FoldLines(Step(cfg), below.(good := end), rest, end)
  {
    assert [] + brk + rest == brk + rest;
    BrokenLine([], brk, rest);
    FoldUnfolds(Step(cfg), below, brk + rest, base, |brk|, [], rest);
  }

  lemma {:induction false} ResumedEqualsFull(cfg: Config, prev: Bytes, before: Time, next: Bytes, mtime: Time)
    requires AppendIsSafe(cfg, prev, next)
    requires Resumable(next, mtime, FullIndex(cfg, prev, before))
    ensures ResumedIndex(cfg, next, mtime, FullIndex(cfg, prev, before)) == FullIndex(cfg, next, mtime)
  {
    var full, part := TailReachesFull(cfg, prev, next);
  }

  // ---------------------------------------------- files that were rewritten

  /** After a full index of `was`, the fast path runs on whatever the file holds now
      exactly when the watermark lies within it, the bytes of the window below the
      watermark are still those of `was`, and a file that ends at the watermark was
      not touched by more than two seconds. */
  lemma {:induction false} ResumesIffWindowKept(cfg: Config, was: Bytes, before: Time, data: Bytes, mtime: Time)
    requires Parse(cfg, NoHead, was).good <= |was|
    ensures var off := Parse(cfg, NoHead, was).good;
            Resumable(data, mtime, FullIndex(cfg, was, before)) <==>
            && 0 < off <= |data|
            && (forall i :: 0 <= i < off && off - 4096 <= i ==> data[i] == was[i])
            && (|data| == off ==> mtime <= before + 2_000_000_000 && before <= mtime + 2_000_000_000)
  {
    var off := Parse(cfg, NoHead, was).good;
    if 0 < off <= |data| { SameWindow(was, data, off); }
  }

  lemma {:induction false} SameWindow(was: Bytes, data: Bytes, off: nat)
    requires 0 < off <= |was| && off <= |data|
    ensures Fingerprint(was, off).Some?
    ensures Fingerprint(data, off) == Fingerprint(was, off) <==>
            (forall i :: 0 <= i < off && off - 4096 <= i ==> data[i] == was[i])
  {
    var start := if off < 4096 then 0 else off - 4096;
    assert Fingerprint(was, off) == Some(was[start..off]) && Fingerprint(data, off) == Some(data[start..off]);
    if data[start..off] == was[start..off] {
      forall i | 0 <= i < off && off - 4096 <= i ensures data[i] == was[i] {
        assert data[start..off][i - start] == was[start..off][i - start];
      }
    }
  }

  /** A turns projection that lost or gained turns is never resumed. */
  lemma WrongCountDeclines(cfg: Config, was: Bytes, before: Time, turns: seq<Turn>, data: Bytes, mtime: Time)
    requires |turns| != |Parse(cfg, NoHead, was).turns|
    ensures !Resumable(data, mtime, FullIndex(cfg, was, before).(turns := turns))
  {
  }

  /** How the file may go on behind what was read of `was`. */
  predicate MayGoOn(cfg: Config, was: Bytes, data: Bytes) {
    TornTailUnread(cfg, was) || |data| == |was| || (|was| < |data| && BreaksLine(was, data))
  }

  /** Whatever happened to a file whose watermark lies in its first 4096 bytes: if
      the fast path runs at all, it gives the projection of a full parse of what
      the file holds now. */
  lemma {:induction false} SmallFileResumesRight(cfg: Config, was: Bytes, before: Time, data: Bytes, mtime: Time)
    requires var off := Parse(cfg, NoHead, was).good;
             && off <= 4096 && MayGoOn(cfg, was, data)
             && (off <= |data| ==> RepeatsAreHarmless(cfg, Parse(cfg, NoHead, was), data[off..]))
    requires Resumable(data, mtime, FullIndex(cfg, was, before))
    ensures ResumedIndex(cfg, data, mtime, FullIndex(cfg, was, before)) == FullIndex(cfg, data, mtime)
  {
    if TornTailUnread(cfg, was) {
      WatermarkCutsAtLine(cfg, was);
      KeptPrefix(cfg, was, before, data, mtime);
      UnreadTailResumes(cfg, was, was[..Parse(cfg, NoHead, was).good], before, data, mtime);
    } else {
      var whole, tail := RecordAtEnd(cfg, was);
      KeptPrefix(cfg, was, before, data, mtime);
      assert was[..|was|] == was;
      ResumedEqualsFull(cfg, was, before, data, mtime);
    }
  }

  /** An index read from the complete lines alone resumes in the same way. */
  lemma {:induction false} UnreadTailResumes(cfg: Config, was: Bytes, kept: Bytes, before: Time, data: Bytes, mtime: Time)
    requires kept <= data && AtBoundary(kept) && Parse(cfg, NoHead, kept) == Parse(cfg, NoHead, was)
    requires Parse(cfg, NoHead, was).good == |kept| <= |was| && Fingerprint(kept, |kept|) == Fingerprint(was, |kept|)
    requires RepeatsAreHarmless(cfg, Parse(cfg, NoHead, was), data[|kept|..])
    requires Resumable(data, mtime, FullIndex(cfg, was, before))
    ensures ResumedIndex(cfg, data, mtime, FullIndex(cfg, was, before)) == FullIndex(cfg, data, mtime)
  {
    var short, long := FullIndex(cfg, kept, before), FullIndex(cfg, was, before);
    SameResume(cfg, short, long, data, mtime);
    ResumedEqualsFull(cfg, kept, before, data, mtime);
  }

  lemma SameResume(cfg: Config, a: Indexed, b: Indexed, data: Bytes, mtime: Time)
    requires a == b.(size := a.size) && Resumable(data, mtime, b)
    ensures Resumable(data, mtime, a) && ResumedIndex(cfg, data, mtime, a) == ResumedIndex(cfg, data, mtime, b)
  {
  }

  lemma {:induction false} KeptPrefix(cfg: Config, was: Bytes, before: Time, data: Bytes, mtime: Time)
    requires Parse(cfg, NoHead, was).good <= |was| && Parse(cfg, NoHead, was).good <= 4096
    requires Resumable(data, mtime, FullIndex(cfg, was, before))
    ensures var off := Parse(cfg, NoHead, was).good;
            0 < off <= |data| && data[..off] == was[..off] && Fingerprint(was[..off], off) == Fingerprint(was, off)
  {
    var off := Parse(cfg, NoHead, was).good;
    ResumesIffWindowKept(cfg, was, before, data, mtime);
    assert was[..off][0..off] == was[0..off];
  }

  /** The condition on repeats is exact: for a tail of one line, resuming agrees
      with the full parse if and only if the line's repeat is harmless. */
  lemma {:induction false} OneLineResumesIffHarmless(cfg: Config, prev: Bytes, before: Time, next: Bytes, mtime: Time)
    requires prev <= next && TornTailUnread(cfg, prev)
    requires Resumable(next, mtime, FullIndex(cfg, prev, before))
    requires var tail := next[Parse(cfg, NoHead, prev).good..]; tail != [] && Advance(tail) == |tail|
    ensures var below := Parse(cfg, NoHead, prev);
            (ResumedIndex(cfg, next, mtime, FullIndex(cfg, prev, before)) == FullIndex(cfg, next, mtime)) <==>
            RepeatIsHarmless(cfg, below, Token(next[below.good..]))
  {
    var below := Parse(cfg, NoHead, prev);
    var tail := next[below.good..];
    if RepeatIsHarmless(cfg, below, Token(tail)) {
      assert tail[Advance(tail)..] == [];
      ResumedEqualsFull(cfg, prev, before, next, mtime);
    } else {
      HarmfulRepeatDiffers(cfg, prev, next);
    }
  }

  lemma {:induction false} HarmfulRepeatDiffers(cfg: Config, prev: Bytes, next: Bytes)
    requires prev <= next && TornTailUnread(cfg, prev)
    requires var below := Parse(cfg, NoHead, prev);
             below.good <= |next| && next[below.good..] != [] && Advance(next[below.good..]) == |next[below.good..]|
             && !RepeatIsHarmless(cfg, below, Token(next[below.good..]))
    ensures var below := Parse(cfg, NoHead, prev);
            var full, part := Parse(cfg, NoHead, next), Parse(cfg, below.head, next[below.good..]);
            part.head != full.head || |below.turns + Kept(Uuids(below.turns), part.turns)| != |full.turns|
  {
    var below := Parse(cfg, NoHead, prev);
    var off, tail := CutAtWatermark(cfg, prev, next);
    FullParseIsSound(cfg, prev);
    var full := FoldOnlyLine(cfg, below, tail, off);
    var part := FoldOnlyLine(cfg, Start(below.head), tail, 0);
    OneRepeat(cfg, below, Token(tail), off, |tail|);
  }

  /** A tail of one line is consumed in one step. */
  lemma {:induction false} FoldOnlyLine(cfg: Config, st: State, tail: Bytes, base: nat) returns (after: State)
    requires tail != [] && Advance(tail) == |tail|
    ensures after == Consume(cfg, st, Line(Token(tail), base + |tail|)) && FoldLines(Step(cfg), st, tail, base) == after
  {
    after := FoldOneLine(cfg, st, tail, base, |tail|, Token(tail), [], base + |tail|);
    FoldOfNothing(Step(cfg), after, [], base + |tail|);
  }

  lemma {:induction false} OneRepeat(cfg: Config, below: State, token: Bytes, off: nat, n: nat)
    requires Sound(below) && !RepeatIsHarmless(cfg, below, token)
    ensures var full, part := Consume(cfg, below, Line(token, off + n)), Consume(cfg, Start(below.head), Line(token, 0 + n));
            part.head != full.head || |below.turns + Kept(Uuids(below.turns), part.turns)| != |full.turns|
  {
    var body := cfg.decode(token).value.body;
    var t := TurnOf(cfg, body, 0);
    assert [] + [t] == [t];
    KeptOfMore(Uuids(below.turns), [], t);
    WidenIsIdle(below.head.bounds, body.timestamp);
  }

  /** Over any run of passes, each resumed or full, over a file that only grows by
      appending, the projection (turns, contiguous indexes, title, entrypoint,
      bounds, counts, watermark and fingerprint) is that of one full parse of the
      last snapshot. */
  lemma {:induction false} EveryRunEqualsOneFullParse(cfg: Config, passes: seq<Pass>)
    requires passes != []
    requires forall i :: 0 <= i < |passes| - 1 ==> AppendIsSafe(cfg, passes[i].data, passes[i + 1].data)
    ensures var last := passes[|passes| - 1];
            RunPasses(cfg, passes) == FullIndex(cfg, last.data, last.mtime)
  {
    if |passes| > 1 {
      var front, p := passes[..|passes| - 1], passes[|passes| - 1];
      EveryRunEqualsOneFullParse(cfg, front);
      var q := front[|front| - 1];
      assert AppendIsSafe(cfg, passes[|passes| - 2].data, p.data);
      if p.resume && Resumable(p.data, p.mtime, FullIndex(cfg, q.data, q.mtime)) {
        ResumedEqualsFull(cfg, q.data, q.mtime, p.data, p.mtime);
      }
    }
  }
}
