/**
  What concurrent callers of the writer are bound to achieve: a caller that gets its turn puts
  exactly its own frame on the stream, every interleaving can be continued until all calls have
  returned, and then the reader recovers one message for every call that was ever made.
 */
module WriterProgress {
  import opened Bytes
  import opened Framing
  import opened ConcurrentWriter

  /** A run that goes on from `s`. */
  function Continue(s: State, es: seq<Event>): State
    decreases |es|
  {
    if es == [] then s else Continue(Step(s, es[0]), es[1..])
  }

  lemma {:induction false} RunContinues(es: seq<Event>, more: seq<Event>)
    ensures Run(es + more) == Continue(Run(es), more)
    decreases |more|
  {
    if more == [] {
      assert es + more == es;
    } else {
      var e := more[0];
      assert (es + [e])[..|es|] == es && Run(es + [e]) == Step(Run(es), e);
      RunContinues(es + [e], more[1..]);
      assert (es + [e]) + more[1..] == es + more;
    }
  }

  lemma ContinueAppend(s: State, xs: seq<Event>, ys: seq<Event>)
    ensures Continue(s, xs + ys) == Continue(Continue(s, xs), ys)
    decreases |xs|
  {
    if xs == [] {
      assert xs + ys == ys;
    } else {
      assert (xs + ys)[1..] == xs[1..] + ys;
      ContinueAppend(Step(s, xs[0]), xs[1..], ys);
    }
  }

  // ---- a caller's turn --------------------------------------------------------------------

  /** The next step of a caller whose writes succeed. */
  function NextOf(t: nat, c: Call): Event {
    match c.phase
    case Waiting => Lock(t)
    case Locked => FillLength(t)
    case LengthFilled => FillFlags(t)
    case HeaderFilled => SendHeader(t, |Header(c.request)|, true)
    case HeaderSent => SendBody(t, |c.request.data|, true)
    case Finished => Unlock(t)
  }

  function StepsLeft(p: Phase): nat {
    match p
    case Waiting => 6
    case Locked => 5
    case LengthFilled => 4
    case HeaderFilled => 3
    case HeaderSent => 2
    case Finished => 1
  }

  /** The mutex is free or the caller's own. */
  ghost predicate HasTurn(s: State, t: nat) {
    t in s.calls && !s.broken && (s.holder == None || s.holder == Some(t))
  }

  /** The caller `t` has moved on, and nobody else. */
  ghost predicate Advanced(s: State, s': State, t: nat) {
    && t in s.calls && !s'.broken
    && s'.order == s.order + (if s.calls[t].phase.Waiting? then [s.calls[t].request] else [])
    && if s.calls[t].phase.Finished? then s'.holder == None && s'.calls == s.calls - {t}
       else
         && s'.holder == Some(t) && t in s'.calls && s'.calls == s.calls[t := s'.calls[t]]
         && s'.calls[t].request == s.calls[t].request && StepsLeft(s'.calls[t].phase) < StepsLeft(s.calls[t].phase)
  }

  lemma FillAdvances(s: State, t: nat)
    requires Exclusive(s) && ScratchOwned(s) && HasTurn(s, t)
    requires s.calls[t].phase.Locked? || s.calls[t].phase.LengthFilled?
    ensures Advanced(s, Step(s, NextOf(t, s.calls[t])), t)
  {
    if s.calls[t].phase.Locked? {
      if s.calls[t].request.Plain? {}
    }
  }

  lemma SendAdvances(s: State, t: nat)
    requires Exclusive(s) && ScratchOwned(s) && HasTurn(s, t)
    requires s.calls[t].phase.HeaderFilled? || s.calls[t].phase.HeaderSent?
    ensures Advanced(s, Step(s, NextOf(t, s.calls[t])), t)
  {
    if s.calls[t].phase.HeaderFilled? {
      assert Scratch(s, s.calls[t].request) == Header(s.calls[t].request);
    }
  }

  lemma TurnAdvances(s: State, t: nat)
    requires Exclusive(s) && ScratchOwned(s) && HasTurn(s, t)
    ensures Advanced(s, Step(s, NextOf(t, s.calls[t])), t)
  {
    match s.calls[t].phase
    case Waiting =>
    case Locked => FillAdvances(s, t);
    case LengthFilled => FillAdvances(s, t);
    case HeaderFilled => SendAdvances(s, t);
    case HeaderSent => SendAdvances(s, t);
    case Finished =>
  }

  /** The turn is over: the caller has returned and everybody else is where they were. */
  ghost predicate TurnTaken(s: State, s': State, t: nat) {
    && t in s.calls && !s'.broken && s'.holder == None && s'.calls == s.calls - {t}
    && s'.order == s.order + (if s.calls[t].phase.Waiting? then [s.calls[t].request] else [])
  }

  lemma TurnGoesOn(s: State, s1: State, s2: State, t: nat)
    requires Advanced(s, s1, t) && !s.calls[t].phase.Finished? && TurnTaken(s1, s2, t)
    requires !s1.calls[t].phase.Waiting?
    ensures TurnTaken(s, s2, t)
  {
    assert s1.calls - {t} == s.calls - {t};
  }

  lemma {:induction false} TakeTurn(s: State, tail: seq<Byte>, t: nat) returns (more: seq<Event>, tail': seq<Byte>)
    requires Inv(s, tail) && HasTurn(s, t)
    ensures TurnTaken(s, Continue(s, more), t) && Inv(Continue(s, more), tail')
    decreases StepsLeft(s.calls[t].phase)
  {
    var e := NextOf(t, s.calls[t]);
    var s1 := Step(s, e);
    TurnAdvances(s, t);
    tail' := StepKeeps(s, tail, e);
    if s.calls[t].phase.Finished? {
      more := [e];
      assert Continue(s, more) == s1;
    } else {
      var later;
      later, tail' := TakeTurn(s1, tail', t);
      more := [e] + later;
      assert more[1..] == later;
      TurnGoesOn(s, s1, Continue(s, more), t);
    }
  }

  /** With the mutex free and no failed write, the stream is the frames of everybody who had a turn. */
  lemma StreamBetweenTurns(s: State, tail: seq<Byte>)
    requires Inv(s, tail) && s.holder == None && !s.broken
    ensures s.sent == s.order && s.out == Stream(Messages(s.order))
  {
    assert s.out + [] == s.out;
  }

  lemma TurnWritesFrame(s: State, tail: seq<Byte>, s': State, tail': seq<Byte>, t: nat)
    requires Inv(s, tail) && s.holder == None && !s.broken && Inv(s', tail') && TurnTaken(s, s', t)
    ensures s'.out == s.out + Frame(s.calls[t].request.Message())
  {
    StreamBetweenTurns(s, tail);
    StreamBetweenTurns(s', tail');
    SentOne(s, s.calls[t].request);
  }

  /**
    Progress: in every interleaving in which the mutex is free and no write has failed, a waiting
    caller can take its turn, and when it has, exactly its frame has been appended to the stream, the
    mutex is free again and every other caller is where it was.
   */
  lemma WaitingCallerWritesItsFrame(es: seq<Event>, t: nat) returns (more: seq<Event>)
    requires var s := Run(es); s.holder == None && !s.broken && t in s.calls
    ensures var s, s' := Run(es), Run(es + more);
      && s'.out == s.out + Frame(s.calls[t].request.Message())
      && s'.holder == None && !s'.broken && s'.calls == s.calls - {t}
  {
    var tail := RunKeeps(es);
    var tail';
    more, tail' := TakeTurn(Run(es), tail, t);
    RunContinues(es, more);
    TurnWritesFrame(Run(es), tail, Run(es + more), tail', t);
  }

  /** A goroutine in no call can make one, whatever the others are doing. */
  lemma CallCanBegin(s: State, t: nat, r: Request)
    requires t !in s.calls
    ensures Step(s, Enter(t, r)) == s.(calls := s.calls[t := Call(r, Waiting)])
  {
  }

  /** Somebody always has a turn. */
  lemma SomebodyHasTurn(s: State) returns (t: nat)
    requires Exclusive(s) && !s.broken && s.calls != map[]
    ensures HasTurn(s, t)
  {
    if s.holder.Some? {
      t := s.holder.value;
    } else {
      assert s.calls.Keys != {};
      t :| t in s.calls.Keys;
    }
  }

  lemma OneLess(calls: map<nat, Call>, t: nat)
    requires t in calls
    ensures |calls - {t}| < |calls|
  {
    assert (calls - {t}).Keys == calls.Keys - {t};
    assert |calls.Keys| == |calls| && |(calls - {t}).Keys| == |calls - {t}|;
  }

  lemma {:induction false} AllReturn(s: State, tail: seq<Byte>) returns (more: seq<Event>)
    requires Inv(s, tail) && !s.broken
    ensures Continue(s, more).calls == map[] && !Continue(s, more).broken
    decreases |s.calls|
  {
    if s.calls == map[] {
      more := [];
    } else {
      var t := SomebodyHasTurn(s);
      var first, tail' := TakeTurn(s, tail, t);
      OneLess(s.calls, t);
      var later := AllReturn(Continue(s, first), tail');
      more := first + later;
      ContinueAppend(s, first, later);
    }
  }

  /** Every interleaving without a failed write can be continued until all calls have returned. */
  lemma EveryCallCanReturn(es: seq<Event>) returns (more: seq<Event>)
    requires !Run(es).broken
    ensures Run(es + more).calls == map[] && !Run(es + more).broken
  {
    var tail := RunKeeps(es);
    more := AllReturn(Run(es), tail);
    RunContinues(es, more);
  }

  // ---- conservation of calls --------------------------------------------------------------

  /** The requests of all calls ever made; a goroutine makes one call at a time. */
  function Entered(es: seq<Event>): seq<Request> {
    if es == [] then [] else
    var init, e := es[..|es| - 1], es[|es| - 1];
    Entered(init) + if e.Enter? && e.t !in Run(init).calls then [e.request] else []
  }

  /** Who is still waiting to send the message `m`. */
  ghost function WaitingWith(s: State, m: Payload): set<nat> {
    set t | t in s.calls && s.calls[t].phase.Waiting? && s.calls[t].request.Message() == m
  }

  function Copies(rs: seq<Request>, m: Payload): nat {
    multiset(Messages(rs))[m]
  }

  lemma CopiesSnoc(rs: seq<Request>, r: Request, m: Payload)
    ensures Copies(rs + [r], m) == Copies(rs, m) + if r.Message() == m then 1 else 0
  {
    assert Messages(rs + [r]) == Messages(rs) + [r.Message()];
  }

  /** A step that neither enters nor takes the mutex. */
  lemma OtherWaits(s: State, e: Event, m: Payload)
    requires Exclusive(s) && !e.Enter? && !e.Lock?
    ensures Step(s, e).order == s.order && WaitingWith(Step(s, e), m) == WaitingWith(s, m)
  {
    var s' := Step(s, e);
    if s' != s {
      assert s.calls[e.t].phase != Waiting;
      assert e.t in s'.calls ==> s'.calls[e.t].phase != Waiting;
      assert forall t :: t != e.t ==> (t in s'.calls <==> t in s.calls) && (t in s.calls ==> s'.calls[t] == s.calls[t]);
    }
  }

  lemma EnterWaits(s: State, t: nat, r: Request, m: Payload)
    requires t !in s.calls
    ensures var s' := Step(s, Enter(t, r));
      s'.order == s.order && |WaitingWith(s', m)| == |WaitingWith(s, m)| + if r.Message() == m then 1 else 0
  {
    var s' := Step(s, Enter(t, r));
    assert WaitingWith(s', m) == WaitingWith(s, m) + if r.Message() == m then {t} else {};
  }

  /** A caller that takes the mutex is waiting no more, and everybody else is as before. */
  lemma LockedWaitsNoMore(s: State, t: nat, m: Payload)
    requires At(s, t, Waiting) && s.holder.None?
    ensures var s' := Step(s, Lock(t)); var r := s.calls[t].request;
      && s'.order == s.order + [r] && t !in WaitingWith(s', m)
      && WaitingWith(s, m) == WaitingWith(s', m) + if r.Message() == m then {t} else {}
  {
    var s' := Step(s, Lock(t));
    assert s'.calls == s.calls[t := Call(s.calls[t].request, Locked)];
  }

  lemma LockWaits(s: State, t: nat, m: Payload)
    ensures var s' := Step(s, Lock(t));
      Copies(s'.order, m) + |WaitingWith(s', m)| == Copies(s.order, m) + |WaitingWith(s, m)|
  {
    if At(s, t, Waiting) && s.holder.None? {
      LockedWaitsNoMore(s, t, m);
      CopiesSnoc(s.order, s.calls[t].request, m);
    }
  }

  lemma StepConserves(s: State, e: Event, m: Payload)
    requires Exclusive(s)
    ensures var s' := Step(s, e);
      Copies(s'.order, m) + |WaitingWith(s', m)| ==
      Copies(s.order, m) + |WaitingWith(s, m)| +
        if e.Enter? && e.t !in s.calls && e.request.Message() == m then 1 else 0
  {
    if e.Enter? {
      if e.t !in s.calls { EnterWaits(s, e.t, e.request, m); }
    } else if e.Lock? {
      LockWaits(s, e.t, m);
    } else {
      OtherWaits(s, e, m);
    }
  }

  lemma {:induction false} RunConserves(es: seq<Event>, m: Payload)
    ensures Copies(Entered(es), m) == Copies(Run(es).order, m) + |WaitingWith(Run(es), m)|
  {
    if es == [] {
      assert WaitingWith(Init(), m) == {};
    } else {
      var init, e := es[..|es| - 1], es[|es| - 1];
      var tail := RunKeeps(init);
      RunConserves(init, m);
      StepConserves(Run(init), e, m);
      if e.Enter? && e.t !in Run(init).calls {
        CopiesSnoc(Entered(init), e.request, m);
      } else {
        assert Entered(init) + [] == Entered(init);
      }
    }
  }

  /**
    One message per call: in every interleaving in which all calls have returned and no write has
    failed, what the reader recovers is, as a multiset, the messages of all calls ever made.
   */
  lemma EveryCallIsRecovered(es: seq<Event>)
    requires Run(es).calls == map[] && !Run(es).broken && Framable(Messages(Entered(es)))
    ensures multiset(ReadAll(Run(es).out)) == multiset(Messages(Entered(es)))
  {
    var tail := RunKeeps(es);
    var order := Run(es).order;
    forall m ensures multiset(Messages(order))[m] == multiset(Messages(Entered(es)))[m] {
      RunConserves(es, m);
      assert WaitingWith(Run(es), m) == {};
    }
    assert multiset(Messages(order)) == multiset(Messages(Entered(es)));
    forall i | 0 <= i < |Messages(order)| ensures |Messages(order)[i]| < WORD {
      assert Messages(order)[i] in multiset(Messages(order));
      assert Messages(order)[i] in Messages(Entered(es));
    }
    ReaderRecoversMessages(es);
  }
}
