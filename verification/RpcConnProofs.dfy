/** What every interleaving of calls, cancellations, deliveries and stream end
    keeps, for the connection of RpcConn. */
module RpcConnProofs {
  import opened Prelude
  import opened RpcConn

  lemma {:induction false} IdsApart(s: Conn, c: nat, d: nat)
    requires Inv(s) && c in s.calls && d in s.calls && c != d && s.calls[c].serial > 0
    ensures Decimal(s.calls[c].serial) != Decimal(s.calls[d].serial)
  {
    if Decimal(s.calls[c].serial) == Decimal(s.calls[d].serial) {
      DecimalIsInjective(s.calls[c].serial, s.calls[d].serial);
    }
  }

  /** The new id belongs to no call yet. */
  lemma {:induction false} NewId(s: Conn, d: nat)
    requires Inv(s) && d in s.calls
    ensures Decimal(s.calls[d].serial) != Decimal(s.nextId + 1)
  {
    assert CallOk(s, d);
    if Decimal(s.calls[d].serial) == Decimal(s.nextId + 1) {
      DecimalIsInjective(s.calls[d].serial, s.nextId + 1);
    }
  }

  lemma {:induction false} StartKeepsCall(s: Conn, c: nat, d: nat)
    requires Inv(s) && Enabled(s, Start(c)) && d in s.calls
    ensures CallOk(Step(s, Start(c)), d)
  {
    assert CallOk(s, d);
    NewId(s, d);
  }

  lemma {:induction false} StartedCall(s: Conn, c: nat)
    requires Inv(s) && Enabled(s, Start(c))
    ensures CallOk(Step(s, Start(c)), c)
  {
    if s.loop.Delivering? { assert s.loop.call in s.calls; }
  }

  lemma {:induction false} StartKeepsTables(s: Conn, c: nat)
    requires Inv(s) && Enabled(s, Start(c))
    ensures var t := Step(s, Start(c));
            && (forall d, e :: d in t.calls && e in t.calls && d != e && t.calls[d].serial == t.calls[e].serial ==>
                  t.calls[d].serial == 0)
            && (forall id :: id in t.pending ==> Registered(t, id))
  {
    var t := Step(s, Start(c));
    forall id | id in t.pending ensures Registered(t, id) {
      if id in s.pending { assert Registered(s, id); }
    }
    forall d | d in s.calls ensures s.calls[d].serial <= s.nextId { assert CallOk(s, d); }
  }

  lemma {:induction false} StartKeeps(s: Conn, c: nat)
    requires Inv(s) && Enabled(s, Start(c))
    ensures Inv(Step(s, Start(c)))
  {
    var t := Step(s, Start(c));
    forall d | d in t.calls ensures CallOk(t, d) {
      if d == c { StartedCall(s, c); } else { StartKeepsCall(s, c, d); }
    }
    StartKeepsTables(s, c);
  }

  /** t differs from s only in the phase of call c, which stays outstanding. */
  lemma {:induction false} PhaseKeeps(s: Conn, a: Action, c: nat)
    requires Inv(s) && Enabled(s, a)
    requires a == WriteOk(c) || a == WriteFails(c) || a == Cancel(c)
    ensures Inv(Step(s, a))
  {
    var t := Step(s, a);
    forall d | d in t.calls ensures CallOk(t, d) {
      PhaseKeepsCall(s, a, c, d);
    }
    forall id | id in t.pending ensures Registered(t, id) {
      assert Registered(s, id);
    }
  }

  lemma {:induction false} PhaseKeepsCall(s: Conn, a: Action, c: nat, d: nat)
    requires Inv(s) && Enabled(s, a) && d in s.calls
    requires a == WriteOk(c) || a == WriteFails(c) || a == Cancel(c)
    ensures CallOk(Step(s, a), d)
  {
    assert CallOk(s, d);
  }

  lemma {:induction false} ReceiveKeeps(s: Conn, c: nat)
    requires Inv(s) && Enabled(s, Receive(c))
    ensures Inv(Step(s, Receive(c)))
  {
    var t := Step(s, Receive(c));
    forall d | d in t.calls ensures CallOk(t, d) {
      ReceiveKeepsCall(s, c, d);
    }
    forall id | id in t.pending ensures Registered(t, id) {
      assert Registered(s, id);
    }
  }

  lemma {:induction false} ReceiveKeepsCall(s: Conn, c: nat, d: nat)
    requires Inv(s) && Enabled(s, Receive(c)) && d in s.calls
    ensures CallOk(Step(s, Receive(c)), d)
  {
    assert CallOk(s, c);
    assert CallOk(s, d);
  }

  lemma {:induction false} RemoveKeepsCall(s: Conn, c: nat, d: nat)
    requires Inv(s) && Enabled(s, Remove(c)) && WhyRemoved(s) && d in s.calls
    ensures CallOk(Step(s, Remove(c)), d)
  {
    assert CallOk(s, c);
    assert CallOk(s, d);
    if d != c { IdsApart(s, c, d); }
  }

  lemma {:induction false} RemoveKeeps(s: Conn, c: nat)
    requires Inv(s) && Enabled(s, Remove(c)) && WhyRemoved(s)
    ensures Inv(Step(s, Remove(c)))
  {
    var t := Step(s, Remove(c));
    forall d | d in t.calls ensures CallOk(t, d) {
      RemoveKeepsCall(s, c, d);
    }
    forall id | id in t.pending ensures Registered(t, id) {
      assert Registered(s, id);
    }
  }

  lemma {:induction false} ReadKeeps(s: Conn, m: Message)
    requires Inv(s) && Enabled(s, ReadResponse(m))
    ensures Inv(Step(s, ReadResponse(m)))
  {
    var t := Step(s, ReadResponse(m));
    if m.id in s.pending { assert Registered(s, m.id); }
    forall d | d in t.calls ensures CallOk(t, d) {
      assert CallOk(s, d);
      if m.id in s.pending && d != s.pending[m.id] { IdsApart(s, s.pending[m.id], d); }
    }
    forall id | id in t.pending ensures Registered(t, id) {
      assert Registered(s, id);
    }
  }

  lemma {:induction false} DeliverKeeps(s: Conn)
    requires Inv(s) && Enabled(s, Deliver)
    ensures Inv(Step(s, Deliver))
  {
    var t := Step(s, Deliver);
    assert CallOk(s, s.loop.call);
    forall d | d in t.calls ensures CallOk(t, d) {
      assert CallOk(s, d);
    }
    forall id | id in t.pending ensures Registered(t, id) {
      assert Registered(s, id);
    }
  }

  lemma {:induction false} EndKeeps(s: Conn)
    requires Inv(s) && Enabled(s, EndStream)
    ensures Inv(Step(s, EndStream))
  {
    var t := Step(s, EndStream);
    forall d | d in t.calls ensures CallOk(t, d) {
      assert CallOk(s, d);
      if d in s.pending.Values {
        var id :| id in s.pending && s.pending[id] == d;
        assert Registered(s, id);
      }
    }
  }

  /** Calls remove their entry only because of a failed write or a cancellation. */
  ghost predicate WhyRemoved(s: Conn) {
    forall c :: c in s.calls && s.calls[c].phase.Removing? ==> !s.calls[c].phase.because.Answer?
  }

  lemma {:induction false} StepKeeps(s: Conn, a: Action)
    requires Inv(s) && WhyRemoved(s) && Enabled(s, a)
    ensures Inv(Step(s, a))
  {
    match a
    case Start(c) => StartKeeps(s, c);
    case WriteOk(c) => PhaseKeeps(s, a, c);
    case WriteFails(c) => PhaseKeeps(s, a, c);
    case Receive(c) => ReceiveKeeps(s, c);
    case Cancel(c) => PhaseKeeps(s, a, c);
    case Remove(c) => RemoveKeeps(s, c);
    case ReadResponse(m) => ReadKeeps(s, m);
    case Deliver => DeliverKeeps(s);
    case EndStream => EndKeeps(s);
  }

  lemma {:induction false} StepKeepsReasons(s: Conn, a: Action)
    requires WhyRemoved(s) && Enabled(s, a)
    ensures WhyRemoved(Step(s, a))
  {
    var t := Step(s, a);
    forall c | c in t.calls && t.calls[c].phase.Removing? ensures !t.calls[c].phase.because.Answer? {
      assert c in s.calls;
    }
  }

  lemma {:induction false} RunKeeps(s: Conn, acts: seq<Action>, s': Conn)
    requires Inv(s) && WhyRemoved(s) && Runs(s, acts, s')
    ensures Inv(s') && WhyRemoved(s')
    decreases |acts|
  {
    if acts != [] {
      StepKeeps(s, acts[0]);
      StepKeepsReasons(s, acts[0]);
      RunKeeps(Step(s, acts[0]), acts[1..], s');
    }
  }

  lemma {:induction false} ReachableIsOk(acts: seq<Action>, s: Conn)
    requires Runs(NewConn, acts, s)
    ensures Inv(s)
  {
    RunKeeps(NewConn, acts, s);
  }

  // ----------------------------------------------------------------- theorems

  /** A response reaches only the call whose id it carries: what a call returns as
      its answer was read from the stream with that call's id, and no other call
      has that id. */
  lemma {:induction false} ResponseReachesItsCall(acts: seq<Action>, s: Conn, c: nat)
    requires Runs(NewConn, acts, s) && c in s.calls
    requires s.calls[c].phase.Returned? && s.calls[c].phase.outcome.Answer?
    ensures var m := s.calls[c].phase.outcome.m;
            && m in s.read && m.id == Decimal(s.calls[c].serial)
            && forall d :: d in s.calls && d != c ==> m.id != Decimal(s.calls[d].serial)
  {
    ReachableIsOk(acts, s);
    assert CallOk(s, c);
    forall d | d in s.calls && d != c ensures Decimal(s.calls[c].serial) != Decimal(s.calls[d].serial) {
      IdsApart(s, c, d);
    }
  }

  /** Each channel gets at most one send, none if it is ever closed, and the read
      loop's send neither blocks nor hits a closed channel. */
  lemma {:induction false} SendsAreSafe(acts: seq<Action>, s: Conn, c: nat)
    requires Runs(NewConn, acts, s)
    ensures c in s.calls && s.calls[c].serial > 0 ==>
              c in s.channels && s.channels[c].sends <= 1 && (s.channels[c].closed ==> s.channels[c].sends == 0)
    ensures s.loop.Delivering? ==> Enabled(s, Deliver)
  {
    ReachableIsOk(acts, s);
    if c in s.calls { assert CallOk(s, c); }
    if s.loop.Delivering? { assert CallOk(s, s.loop.call); }
  }

  /** A channel once closed stays closed over the rest of every run, and is never
      sent to again. */
  lemma {:induction false} NoSendAfterClose(acts: seq<Action>, s: Conn, more: seq<Action>, t: Conn, c: nat)
    requires Runs(NewConn, acts, s) && Runs(s, more, t) && c in s.calls && c in s.channels && s.channels[c].closed
    ensures c in t.channels && t.channels[c].closed && t.channels[c].sends == s.channels[c].sends
  {
    RunKeeps(NewConn, acts, s);
    ClosedStays(s, more, t, c);
  }

  lemma {:induction false} ClosedStays(s: Conn, acts: seq<Action>, t: Conn, c: nat)
    requires Inv(s) && WhyRemoved(s) && Runs(s, acts, t) && c in s.calls && c in s.channels && s.channels[c].closed
    ensures c in t.channels && t.channels[c].closed && t.channels[c].sends == s.channels[c].sends
    decreases |acts|
  {
    if acts != [] {
      StepKeeps(s, acts[0]);
      StepKeepsReasons(s, acts[0]);
      ClosedStep(s, acts[0], c);
      ClosedStays(Step(s, acts[0]), acts[1..], t, c);
    }
  }

  lemma {:induction false} ClosedStep(s: Conn, a: Action, c: nat)
    requires Inv(s) && Enabled(s, a) && c in s.calls && c in s.channels && s.channels[c].closed
    ensures var t := Step(s, a);
            c in t.calls && c in t.channels && t.channels[c].closed && t.channels[c].sends == s.channels[c].sends
  {
    assert CallOk(s, c);
  }

  /** Where the stream has ended, every outstanding call can return by its own next
      steps: a waiting call receives, a call still writing receives after its
      write, and one that failed or was cancelled finishes removing its entry. */
  lemma {:induction false} EveryCallCanReturn(acts: seq<Action>, s: Conn, c: nat)
    requires Runs(NewConn, acts, s) && s.loop.Ended? && c in s.calls && Outstanding(s.calls[c])
    ensures exists rest, s' :: |rest| <= 2 && Runs(s, rest, s') && c in s'.calls && s'.calls[c].phase.Returned?
  {
    ReachableIsOk(acts, s);
    assert CallOk(s, c);
    match s.calls[c].phase
    case Waiting => OneStep(s, Receive(c));
    case Removing(_) => OneStep(s, Remove(c));
    case Writing =>
      PhaseKeeps(s, WriteOk(c), c);
      var t := Step(s, WriteOk(c));
      assert CallOk(t, c);
      TwoSteps(s, WriteOk(c), Receive(c));
  }

  /** A call whose write fails, or that is cancelled while it waits, returns that very
      error by two steps of its own, in any state of the stream; only its own entry is
      gone. */
  lemma {:induction false} GivenUpCallReturns(s: Conn, c: nat)
    requires InPhase(s, c, Writing) || InPhase(s, c, Waiting)
    ensures var writing := s.calls[c].phase.Writing?;
            var why := if writing then WriteError else Cancelled;
            Runs(s, [if writing then WriteFails(c) else Cancel(c), Remove(c)],
                 s.(calls := s.calls[c := Call(s.calls[c].serial, Returned(why), s.calls[c].since)],
                    pending := s.pending - {Decimal(s.calls[c].serial)}))
  {
    var a := if s.calls[c].phase.Writing? then WriteFails(c) else Cancel(c);
    TwoSteps(s, a, Remove(c));
    var t := Step(Step(s, a), Remove(c));
    assert t.calls == s.calls[c := t.calls[c]];
  }

  lemma {:induction false} OneStep(s: Conn, a: Action)
    requires Enabled(s, a)
    ensures Runs(s, [a], Step(s, a))
  {
    assert [a][1..] == [];
    assert Runs(Step(s, a), [], Step(s, a));
  }

  lemma {:induction false} TwoSteps(s: Conn, a: Action, b: Action)
    requires Enabled(s, a) && Enabled(Step(s, a), b)
    ensures Runs(s, [a, b], Step(Step(s, a), b))
  {
    OneStep(Step(s, a), b);
    assert [a, b][1..] == [b];
  }

  // ------------------------------------------------------ responses get through

  /** While the loop is reading, a waiting call that is registered gets the answer:
      reading a message with its id, delivering it and receiving it are enabled in
      turn, and the call returns that message. */
  lemma {:induction false} ResponseGetsThrough(acts: seq<Action>, s: Conn, c: nat, m: Message)
    requires Runs(NewConn, acts, s) && s.loop.Reading? && InPhase(s, c, Waiting)
    requires m.id in s.pending && s.pending[m.id] == c
    ensures exists t :: Runs(s, [ReadResponse(m), Deliver, Receive(c)], t) && InPhase(t, c, Returned(Answer(m)))
  {
    ReachableIsOk(acts, s);
    assert CallOk(s, c) && Registered(s, m.id);
    var t1 := Step(s, ReadResponse(m));
    assert t1.loop == Delivering(c, m) && t1.channels == s.channels && t1.calls == s.calls;
    var t2 := Step(t1, Deliver);
    assert t2.calls == s.calls && t2.channels[c].buffer == Some(m);
    ThreeSteps(s, ReadResponse(m), Deliver, Receive(c));
  }

  lemma {:induction false} ThreeSteps(s: Conn, a: Action, b: Action, c: Action)
    requires Enabled(s, a) && Enabled(Step(s, a), b) && Enabled(Step(Step(s, a), b), c)
    ensures Runs(s, [a, b, c], Step(Step(Step(s, a), b), c))
  {
    TwoSteps(Step(s, a), b, c);
    assert [a, b, c][1..] == [b, c];
  }

  lemma {:induction false} StartKeepsAnswers(s: Conn, c: nat, d: nat)
    requires Inv(s) && AnswersOk(s) && Enabled(s, Start(c)) && d in Step(s, Start(c)).calls
    ensures AnswerOk(Step(s, Start(c)), d)
  {
    if d != c {
      assert AnswerOk(s, d) && CallOk(s, d);
      NewId(s, d);
    }
  }

  lemma {:induction false} ReadKeepsAnswers(s: Conn, m: Message, d: nat)
    requires Inv(s) && AnswersOk(s) && Enabled(s, ReadResponse(m)) && d in s.calls
    ensures AnswerOk(Step(s, ReadResponse(m)), d)
  {
    assert AnswerOk(s, d) && CallOk(s, d);
    if m.id in s.pending {
      assert Registered(s, m.id);
      if d != s.pending[m.id] { IdsApart(s, s.pending[m.id], d); }
    }
  }

  lemma {:induction false} EndKeepsAnswers(s: Conn, d: nat)
    requires Inv(s) && AnswersOk(s) && Enabled(s, EndStream) && d in s.calls
    ensures AnswerOk(Step(s, EndStream), d)
  {
    assert AnswerOk(s, d) && CallOk(s, d);
    if d in s.pending.Values {
      var id :| id in s.pending && s.pending[id] == d;
      assert Registered(s, id);
    }
  }

  lemma {:induction false} OtherKeepsAnswers(s: Conn, a: Action, d: nat)
    requires Inv(s) && AnswersOk(s) && Enabled(s, a) && d in s.calls
    requires !a.Start? && !a.ReadResponse? && !a.EndStream?
    ensures AnswerOk(Step(s, a), d)
  {
    assert AnswerOk(s, d) && CallOk(s, d);
    if a.Deliver? { assert CallOk(s, s.loop.call); }
  }

  lemma {:induction false} StepKeepsAnswers(s: Conn, a: Action)
    requires Inv(s) && AnswersOk(s) && Enabled(s, a)
    ensures AnswersOk(Step(s, a))
  {
    forall d | d in Step(s, a).calls ensures AnswerOk(Step(s, a), d) {
      match a
      case Start(c) => StartKeepsAnswers(s, c, d);
      case ReadResponse(m) => ReadKeepsAnswers(s, m, d);
      case EndStream => EndKeepsAnswers(s, d);
      case _ => OtherKeepsAnswers(s, a, d);
    }
  }

  lemma {:induction false} RunKeepsAnswers(s: Conn, acts: seq<Action>, s': Conn)
    requires Inv(s) && WhyRemoved(s) && AnswersOk(s) && Runs(s, acts, s')
    ensures AnswersOk(s')
    decreases |acts|
  {
    if acts != [] {
      StepKeeps(s, acts[0]);
      StepKeepsReasons(s, acts[0]);
      StepKeepsAnswers(s, acts[0]);
      RunKeepsAnswers(Step(s, acts[0]), acts[1..], s');
    }
  }

  /** In every run, a call that returned because the stream ended had no response: no
      message with its id was read from the moment it started. */
  lemma {:induction false} ClosedCallHadNoResponse(acts: seq<Action>, s: Conn, c: nat)
    requires Runs(NewConn, acts, s) && InPhase(s, c, Returned(StreamClosed)) && s.calls[c].serial > 0
    ensures s.loop.Ended? && s.calls[c].since <= |s.read|
    ensures forall i :: s.calls[c].since <= i < |s.read| ==> s.read[i].id != Decimal(s.calls[c].serial)
  {
    RunKeepsAnswers(NewConn, acts, s);
    assert AnswerOk(s, c);
  }

  /** Only outstanding calls are registered. */
  ghost predicate OnlyOutstanding(s: Conn) {
    forall id :: id in s.pending ==> s.pending[id] in s.calls && Outstanding(s.calls[s.pending[id]])
  }

  lemma {:induction false} StepKeepsOutstanding(s: Conn, a: Action)
    requires Inv(s) && OnlyOutstanding(s) && Enabled(s, a)
    ensures OnlyOutstanding(Step(s, a))
  {
    var t := Step(s, a);
    forall id | id in t.pending ensures t.pending[id] in t.calls && Outstanding(t.calls[t.pending[id]]) {
      if id in s.pending {
        assert Registered(s, id) && CallOk(s, s.pending[id]);
      }
    }
  }

  lemma {:induction false} RunKeepsOutstanding(s: Conn, acts: seq<Action>, s': Conn)
    requires Inv(s) && WhyRemoved(s) && OnlyOutstanding(s) && Runs(s, acts, s')
    ensures OnlyOutstanding(s')
    decreases |acts|
  {
    if acts != [] {
      StepKeeps(s, acts[0]);
      StepKeepsReasons(s, acts[0]);
      StepKeepsOutstanding(s, acts[0]);
      RunKeepsOutstanding(Step(s, acts[0]), acts[1..], s');
    }
  }

  /** In every run, a call that has returned, for whatever reason, is no longer
      registered. */
  lemma {:induction false} ReturnedCallIsForgotten(acts: seq<Action>, s: Conn, c: nat)
    requires Runs(NewConn, acts, s) && c in s.calls && s.calls[c].phase.Returned?
    ensures c !in s.pending.Values
  {
    RunKeepsOutstanding(NewConn, acts, s);
  }

  /** New calls after the end fail at once. */
  lemma {:induction false} CallsAfterTheEndFail(acts: seq<Action>, s: Conn, c: nat)
    requires Runs(NewConn, acts, s) && s.loop.Ended? && Enabled(s, Start(c))
    ensures Step(s, Start(c)).calls[c].phase == Returned(StreamClosed)
    ensures Step(s, Start(c)).pending == map[]
  {
    ReachableIsOk(acts, s);
  }
}
