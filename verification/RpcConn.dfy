/** The JSON-RPC connection (internal/acprpc/conn.go) as a transition system: any
    number of concurrent calls, cancellations and one read loop. Matching of
    responses to requests follows section 5 of the JSON-RPC 2.0 Specification. */
module RpcConn {
  import opened Prelude

  /** A response: its id as raw text, and its payload. */
  datatype Message = Message(id: string, payload: nat)

  datatype Outcome = Answer(m: Message) | StreamClosed | WriteError | Cancelled

  datatype Phase =
    | Writing
    | Waiting
    | Removing(because: Outcome)  // about to delete its own pending entry
    | Returned(outcome: Outcome)

  /** One Call; serial numbers its request, zero for a call that found the
      connection closed. `since` is history: how many messages had been read when
      it started. */
  datatype Call = Call(serial: nat, phase: Phase, since: nat)

  /** A channel with room for one message. */
  datatype Channel = Channel(buffer: Option<Message>, closed: bool, sends: nat)

  /** The read loop: between lines, holding a message for a call's channel, or
      done. */
  datatype Loop = Reading | Delivering(call: nat, m: Message) | Ended

  datatype Conn = Conn(
    nextId: nat, pending: map<string, nat>, closed: bool, loop: Loop,
    calls: map<nat, Call>, channels: map<nat, Channel>, read: seq<Message>)

  const NewConn := Conn(0, map[], false, Reading, map[], map[], [])

  // ------------------------------------------------------------- request ids

  function Digit(n: nat): char
    requires n < 10
  {
    '0' + n as char
  }

  /** `strconv.FormatInt(n, 10)`. */
  function Decimal(n: nat): (s: string)
    ensures |s| > 0
  {
    if n < 10 then [Digit(n)] else Decimal(n / 10) + [Digit(n % 10)]
  }

  /** The number a string of digits stands for. */
  function ReadDecimal(s: string): nat {
    if s == "" || !('0' <= s[|s| - 1] <= '9') then 0
    else 10 * ReadDecimal(s[..|s| - 1]) + (s[|s| - 1] - '0') as nat
  }

  /** An id is the decimal numeral of its request, without leading zeros. */
  lemma {:induction false} DecimalIsNumeral(n: nat)
    ensures ReadDecimal(Decimal(n)) == n
    ensures forall i :: 0 <= i < |Decimal(n)| ==> '0' <= Decimal(n)[i] <= '9'
    ensures n > 0 ==> Decimal(n)[0] != '0'
  {
    var s := Decimal(n);
    if n < 10 {
      assert s[..0] == "";
    } else {
      DecimalIsNumeral(n / 10);
      assert s[..|s| - 1] == Decimal(n / 10);
    }
  }

  /** Distinct requests carry distinct ids. */
  lemma {:induction false} DecimalIsInjective(a: nat, b: nat)
    requires Decimal(a) == Decimal(b)
    ensures a == b
  {
    DecimalIsNumeral(a);
    DecimalIsNumeral(b);
  }

  // ---------------------------------------------------------------- the steps

  datatype Action =
    | Start(c: nat)
    | WriteOk(c: nat)
    | WriteFails(c: nat)
    | Receive(c: nat)
    | Cancel(c: nat)
    | Remove(c: nat)
    | ReadResponse(m: Message)
    | Deliver
    | EndStream

  predicate InPhase(s: Conn, c: nat, p: Phase) { c in s.calls && s.calls[c].phase == p }

  predicate Enabled(s: Conn, a: Action) {
    match a
    case Start(c) => c !in s.calls
    case WriteOk(c) => InPhase(s, c, Writing)
    case WriteFails(c) => InPhase(s, c, Writing)
    case Receive(c) =>
      InPhase(s, c, Waiting) && c in s.channels && (s.channels[c].buffer.Some? || s.channels[c].closed)
    case Cancel(c) => InPhase(s, c, Waiting)
    case Remove(c) => c in s.calls && s.calls[c].phase.Removing?
    case ReadResponse(m) => s.loop.Reading?
    case Deliver => s.loop.Delivering? && CanSend(s, s.loop.call)
    case EndStream => s.loop.Reading?
  }

  /** A send that neither blocks nor panics. */
  predicate CanSend(s: Conn, c: nat) {
    c in s.channels && s.channels[c].buffer.None? && !s.channels[c].closed
  }

  function SetPhase(s: Conn, c: nat, p: Phase): Conn
    requires c in s.calls
  {
    s.(calls := s.calls[c := s.calls[c].(phase := p)])
  }

  function CloseAll(s: Conn): map<nat, Channel> {
    map c | c in s.channels :: if c in s.pending.Values then s.channels[c].(closed := true) else s.channels[c]
  }

  function Step(s: Conn, a: Action): Conn
    requires Enabled(s, a)
  {
    match a
    case Start(c) =>
      if s.closed then s.(calls := s.calls[c := Call(0, Returned(StreamClosed), |s.read|)])
      else
        var n := s.nextId + 1;
        s.(nextId := n, pending := s.pending[Decimal(n) := c],
           calls := s.calls[c := Call(n, Writing, |s.read|)], channels := s.channels[c := Channel(None, false, 0)])
    case WriteOk(c) => SetPhase(s, c, Waiting)
    case WriteFails(c) => SetPhase(s, c, Removing(WriteError))
    case Receive(c) =>
      var ch := s.channels[c];
      if ch.buffer.Some?
      then SetPhase(s, c, Returned(Answer(ch.buffer.value))).(channels := s.channels[c := ch.(buffer := None)])
      else SetPhase(s, c, Returned(StreamClosed))
    case Cancel(c) => SetPhase(s, c, Removing(Cancelled))
    case Remove(c) =>
      SetPhase(s, c, Returned(s.calls[c].phase.because)).(pending := s.pending - {Decimal(s.calls[c].serial)})
    case ReadResponse(m) =>
      var s1 := s.(read := s.read + [m]);
      if m.id in s.pending then s1.(pending := s.pending - {m.id}, loop := Delivering(s.pending[m.id], m)) else s1
    case Deliver =>
      var c, m := s.loop.call, s.loop.m;
      s.(loop := Reading,
         channels := s.channels[c := Channel(Some(m), s.channels[c].closed, s.channels[c].sends + 1)])
    case EndStream => s.(closed := true, loop := Ended, channels := CloseAll(s), pending := map[])
  }

  ghost predicate Runs(s: Conn, acts: seq<Action>, s': Conn)
    decreases |acts|
  {
    if acts == [] then s' == s else Enabled(s, acts[0]) && Runs(Step(s, acts[0]), acts[1..], s')
  }

  // --------------------------------------------------------------- invariant

  predicate Outstanding(c: Call) { !c.phase.Returned? }

  /** What holds of one call and its channel. A serial of zero marks a call that
      found the connection closed. */
  ghost predicate CallOk(s: Conn, c: nat)
    requires c in s.calls
  {
    var call := s.calls[c];
    && call.serial <= s.nextId
    && (call.serial == 0 ==> call.phase == Returned(StreamClosed))
    && (call.serial > 0 ==> c in s.channels && ChannelOk(s, c, call.serial))
    && (call.phase.Returned? && call.phase.outcome.Answer? ==>
          call.phase.outcome.m.id == Decimal(call.serial) && call.phase.outcome.m in s.read)
  }

  /** No message with the call's id was read since it started. */
  ghost predicate Unanswered(s: Conn, c: nat)
    requires c in s.calls
  {
    forall i :: s.calls[c].since <= i < |s.read| ==> s.read[i].id != Decimal(s.calls[c].serial)
  }

  predicate IsPending(s: Conn, c: nat)
    requires c in s.calls
  {
    Decimal(s.calls[c].serial) in s.pending && s.pending[Decimal(s.calls[c].serial)] == c
  }

  /** A registered call has no answer yet, and a call that was cut off by the end
      of the stream never had one. */
  ghost predicate AnswerOk(s: Conn, c: nat)
    requires c in s.calls
  {
    && s.calls[c].since <= |s.read|
    && (s.calls[c].serial > 0 && IsPending(s, c) ==> Unanswered(s, c))
    && (c in s.channels && s.channels[c].closed && s.calls[c].serial > 0 ==> s.loop.Ended? && Unanswered(s, c))
    && (s.calls[c].phase == Returned(StreamClosed) ==>
          s.loop.Ended? && (s.calls[c].serial > 0 ==> Unanswered(s, c)))
    && (s.calls[c].phase.Removing? ==> s.calls[c].phase.because != StreamClosed)
  }

  ghost predicate AnswersOk(s: Conn) { forall c :: c in s.calls ==> AnswerOk(s, c) }

  ghost predicate ChannelOk(s: Conn, c: nat, serial: nat)
    requires c in s.channels
  {
    var ch, awaited := s.channels[c], s.loop.Delivering? && s.loop.call == c;
    && (ch.buffer.Some? ==> ch.buffer.value.id == Decimal(serial) && ch.buffer.value in s.read && ch.sends == 1)
    && (Decimal(serial) in s.pending && s.pending[Decimal(serial)] == c ==> ch == Channel(None, false, 0) && !awaited)
    && (awaited ==> ch == Channel(None, false, 0) && s.loop.m.id == Decimal(serial) && s.loop.m in s.read)
    && ch.sends <= 1 && (ch.closed ==> ch.sends == 0)
    && (InPhase(s, c, Writing) || InPhase(s, c, Waiting) ==>
          ch.buffer.Some? || ch.closed || awaited
          || (Decimal(serial) in s.pending && s.pending[Decimal(serial)] == c))
  }

  ghost predicate Inv(s: Conn) {
    && (forall c :: c in s.calls ==> CallOk(s, c))
    && (forall c, d :: c in s.calls && d in s.calls && c != d && s.calls[c].serial == s.calls[d].serial ==>
          s.calls[c].serial == 0)
    && (forall id :: id in s.pending ==> Registered(s, id))
    && (s.loop.Delivering? ==> s.loop.call in s.calls && s.calls[s.loop.call].serial > 0)
    && (s.closed <==> s.loop.Ended?)
    && (s.closed ==> s.pending == map[])
  }

  ghost predicate Registered(s: Conn, id: string)
    requires id in s.pending
  {
    var c := s.pending[id];
    c in s.calls && s.calls[c].serial > 0 && id == Decimal(s.calls[c].serial)
  }
}
