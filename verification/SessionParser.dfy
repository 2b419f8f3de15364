/** The streaming session parser (internal/conversations/parser.go:102-205) and
    the time bounds both parsers keep (parser.go:378-388). */
module SessionParser {
  import opened Prelude
  import opened Lines

  // ------------------------------------------------------------- time bounds

  datatype Bounds = Bounds(first: Time, last: Time)

  /** `updateTimeBounds`. */
  function Widen(b: Bounds, t: Time): Bounds {
    if t == 0 then b
    else Bounds(if b.first == 0 || t < b.first then t else b.first,
                if b.last == 0 || t > b.last then t else b.last)
  }

  /** b is set and holds t. */
  predicate Holds(b: Bounds, t: Time) {
    0 < b.first <= t <= b.last
  }

  /** Unset, or a proper interval. */
  predicate Proper(b: Bounds) {
    b == Bounds(0, 0) || 0 < b.first <= b.last
  }

  /** The bounds are exactly the least and greatest timestamps of the turns. */
  ghost predicate Exact(b: Bounds, turns: seq<Turn>) {
    && (forall i :: 0 <= i < |turns| && turns[i].timestamp > 0 ==> Holds(b, turns[i].timestamp))
    && (b.first > 0 ==> exists i :: 0 <= i < |turns| && turns[i].timestamp == b.first)
    && (b.last > 0 ==> exists i :: 0 <= i < |turns| && turns[i].timestamp == b.last)
    && Proper(b)
  }

  /** The bounds hold every timestamp the turns carry. */
  ghost predicate Encloses(b: Bounds, turns: seq<Turn>) {
    forall i :: 0 <= i < |turns| && turns[i].timestamp > 0 ==> Holds(b, turns[i].timestamp)
  }

  /** Everything a holds, b holds. */
  ghost predicate Wider(a: Bounds, b: Bounds) {
    forall t :: Holds(a, t) ==> Holds(b, t)
  }

  lemma WidenHolds(b: Bounds, t: Time)
    ensures Wider(b, Widen(b, t)) && (t > 0 ==> Holds(Widen(b, t), t))
  {
  }

  lemma WidenKeepsExact(b: Bounds, turns: seq<Turn>, t: Turn)
    requires Exact(b, turns)
    ensures Exact(Widen(b, t.timestamp), turns + [t])
  {
    var b', turns' := Widen(b, t.timestamp), turns + [t];
    assert turns'[|turns|] == t;
    if b'.first > 0 {
      if b'.first == b.first {
        var i :| 0 <= i < |turns| && turns[i].timestamp == b.first;
        assert turns'[i].timestamp == b'.first;
      } else {
        assert turns'[|turns|].timestamp == b'.first;
      }
    }
    if b'.last > 0 {
      if b'.last == b.last {
        var i :| 0 <= i < |turns| && turns[i].timestamp == b.last;
        assert turns'[i].timestamp == b'.last;
      } else {
        assert turns'[|turns|].timestamp == b'.last;
      }
    }
  }

  // ----------------------------------------------------------------- records

  /** What a user or assistant record yields once its content has been extracted;
      records without usable content yield nothing. */
  datatype Content = Content(text: string, isToolCall: bool)

  datatype Body =
    | AiTitle(title: string)
    | Message(role: Role, uuid: string, parent: string, timestamp: Time, content: Option<Content>)
    | Other

  datatype Record = Record(entrypoint: string, body: Body)

  /** JSON decoding of one line, left uninterpreted. */
  type Decoder = Bytes -> Option<Record>

  datatype Config = Config(decode: Decoder, sessionId: string, maxTurnLen: nat)

  function Truncate(text: string, maxLen: nat): string {
    if |text| > maxLen then text[..maxLen] + " [truncated]" else text
  }

  function TurnOf(cfg: Config, m: Body, index: int): Turn
    requires m.Message? && m.content.Some?
  {
    Turn(m.uuid, cfg.sessionId, index, m.role, m.timestamp, Truncate(m.content.value.text, cfg.maxTurnLen),
         m.content.value.isToolCall, m.parent, "", "", "")
  }

  /** Meta fields the parser updates in place. */
  datatype Head = Head(entrypoint: string, title: string, bounds: Bounds)

  /** Parser state: `good` is the offset past the last line that decoded. */
  datatype State = State(head: Head, turns: seq<Turn>, seen: set<string>, good: nat)

  const NoHead := Head("", "", Bounds(0, 0))

  function Start(head: Head): State { State(head, [], {}, 0) }

  function Consume(cfg: Config, st: State, line: Line): State {
    if line.token == [] then st.(good := line.end)
    else match cfg.decode(line.token)
      case None => st
      case Some(rec) =>
        var st1 := st.(good := line.end, head := st.head.(entrypoint :=
          if st.head.entrypoint == "" then rec.entrypoint else st.head.entrypoint));
        ConsumeBody(cfg, st1, rec.body)
  }

  function ConsumeBody(cfg: Config, st: State, body: Body): State {
    match body
    case AiTitle(title) => if title == "" then st else st.(head := st.head.(title := title))
    case Message(_, uuid, _, timestamp, content) =>
      if uuid != "" && uuid in st.seen then st
      else
        var st1 := if uuid != "" then st.(seen := st.seen + {uuid}) else st;
        if content.None? then st1
        else st1.(head := st1.head.(bounds := Widen(st1.head.bounds, timestamp)),
                  turns := st1.turns + [TurnOf(cfg, body, |st1.turns|)])
    case Other => st
  }

  function Step(cfg: Config): (State, Line) -> State {
    (st: State, line: Line) => Consume(cfg, st, line)
  }

  /** Every line of data, from the given meta fields. */
  function Parse(cfg: Config, head: Head, data: Bytes): State {
    FoldLines(Step(cfg), Start(head), data, 0)
  }

  /** `ParseSession`: the scanner loop. */
  method ParseSession(cfg: Config, head: Head, data: Bytes) returns (st: State)
    ensures st == Parse(cfg, head, data)
  {
    st := Start(head);
    var rest, consumed := data, 0;
    ghost var whole := Parse(cfg, head, data);
    while rest != []
      invariant FoldLines(Step(cfg), st, rest, consumed) == whole
      decreases |rest|
    {
      st, rest, consumed := ParseLine(cfg, st, rest, consumed);
    }
    FoldOfNothing(Step(cfg), st, rest, consumed);
  }

  /** One turn of the scanner loop. */
  method ParseLine(cfg: Config, st: State, rest: Bytes, consumed: nat) returns (st': State, rest': Bytes, consumed': nat)
    requires rest != []
    ensures |rest'| < |rest|
    ensures FoldLines(Step(cfg), st', rest', consumed') == FoldLines(Step(cfg), st, rest, consumed)
  {
    var n, token := NextToken(rest);
    rest', consumed' := rest[n..], consumed + n;
    FoldUnfolds(Step(cfg), st, rest, consumed, n, token, rest');
    st' := ConsumeLine(cfg, st, token, consumed');
  }

  method ConsumeLine(cfg: Config, st: State, token: Bytes, consumed: nat) returns (out: State)
    ensures out == Consume(cfg, st, Line(token, consumed))
  {
    out := st;
    if token == [] {
      out := out.(good := consumed);
    } else {
      var rec := cfg.decode(token);
      if rec.Some? {
        out := out.(good := consumed);
        if out.head.entrypoint == "" { out := out.(head := out.head.(entrypoint := rec.value.entrypoint)); }
        out := ConsumeBody(cfg, out, rec.value.body);
      }
    }
  }

  method NextToken(rest: Bytes) returns (n: nat, token: Bytes)
    requires rest != []
    ensures n == Advance(rest) && token == Token(rest)
  {
    n := 0;
    while n < |rest| && rest[n] != NL
      invariant n <= |rest|
      invariant Advance(rest) == n + Advance(rest[n..])
      invariant n < |rest| || rest[n - 1] != NL
      invariant n > 0 ==> rest[n - 1] != NL
    {
      assert rest[n..][1..] == rest[n + 1..];
      n := n + 1;
    }
    if n < |rest| {
      n := n + 1;
      token := DropCR(rest[..n - 1]);
    } else {
      token := DropCR(rest[..n]);
    }
  }

  // ---------------------------------------------------------- what a parse keeps

  ghost predicate Contiguous(turns: seq<Turn>) {
    forall i :: 0 <= i < |turns| ==> turns[i].turnIndex == i
  }

  /** Uuids of emitted turns were recorded, indexes are contiguous, and the
      bounds are exact. */
  ghost predicate Sound(st: State) {
    && Contiguous(st.turns)
    && (forall t :: t in st.turns && t.uuid != "" ==> t.uuid in st.seen)
    && Exact(st.head.bounds, st.turns)
  }

  lemma ConsumeKeepsSound(cfg: Config, st: State, line: Line)
    requires Sound(st)
    ensures Sound(Consume(cfg, st, line))
  {
    if line.token != [] && cfg.decode(line.token).Some? {
      var body := cfg.decode(line.token).value.body;
      if body.Message? && !(body.uuid != "" && body.uuid in st.seen) && body.content.Some? {
        WidenKeepsExact(st.head.bounds, st.turns, TurnOf(cfg, body, |st.turns|));
      }
    }
  }

  lemma FoldKeepsSound(cfg: Config, st: State, data: Bytes, base: nat)
    requires Sound(st)
    ensures Sound(FoldLines(Step(cfg), st, data, base))
  {
    forall s: State, line: Line | Sound(s) ensures Sound(Step(cfg)(s, line)) {
      ConsumeKeepsSound(cfg, s, line);
    }
    FoldKeeps(Step(cfg), (s: State) => Sound(s), st, data, base);
  }

  /** A full parse numbers its turns from zero without gaps and its time bounds
      are exactly the least and greatest timestamps it saw. */
  lemma FullParseIsSound(cfg: Config, data: Bytes)
    ensures Sound(Parse(cfg, NoHead, data))
  {
    FoldKeepsSound(cfg, Start(NoHead), data, 0);
  }
}
