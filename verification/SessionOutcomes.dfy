/**
  What a session is bound to do, event by event, from every reachable state: where a transfer leads
  in each of its outcomes, what the first and what a later failure of the current server lead to,
  how a transfer packet is obeyed, and what login, closing and the top of the server loop change.
 */
module SessionOutcomes {
  import opened Bytes
  import opened ServerConn
  import opened Tracker
  import opened SessionMachine
  import opened SessionProofs
  import SessionFrames
  import SessionDelivery
  import Handshake

  // ---- transfers --------------------------------------------------------------------------

  /** The connections up to `n` are closed. */
  ghost predicate ClosedUpTo(s: Session, n: nat) {
    n <= |s.links| && forall j :: 0 <= j < n ==> s.links[j].conn.closed
  }

  /** An attempt that was waiting for the current connection has failed; every other one is as it was. */
  ghost predicate CurrentGivenUp(s: Session, t: Session) {
    |s.attempts| <= |t.attempts| &&
    forall k: nat :: k < |s.attempts| ==>
      t.attempts[k] == if Connecting(s, k) then s.attempts[k].(failures := 1) else s.attempts[k]
  }

  /** Everything but the connections and the attempts. */
  ghost predicate SameElsewhere(s: Session, t: Session) {
    t == s.(links := t.links, attempts := t.attempts)
  }

  /** A transfer that gets as far as the transport. */
  ghost predicate Transferred(s: Session, c: TransferChoice, d: Did) {
    var t := d.session; var n := |s.links|;
    && (d.ok <==> c.dialOk && c.connectOk)
    && ClosedUpTo(t, n) && CurrentGivenUp(s, t) && SameElsewhere(s, t)
    && |t.links| == n + (if c.dialOk then 1 else 0)
    && (c.dialOk ==> t.links[n] == Link(New(c.input, c.connectOk), if c.connectOk then Some(|s.attempts|) else None))
    && |t.attempts| == |s.attempts| + 1
    && t.attempts[|s.attempts|] == if d.ok then Attempt(Some(n), 0, 0) else Attempt(None, 1, 0)
  }

  /** Closing the current connection fails exactly the attempt that was waiting for it. */
  lemma CloseCurrentOutcome(o: Options, s: Session)
    requires Core(o, s)
    ensures var t := CloseCurrent(s);
      && |t.links| == |s.links| && ClosedUpTo(t, |s.links|) && |t.attempts| == |s.attempts|
      && CurrentGivenUp(s, t) && SameElsewhere(s, t)
  {
    CloseCurrentCore(o, s);
    forall k: nat | k < |s.attempts|
      ensures CloseCurrent(s).attempts[k] == if Connecting(s, k) then s.attempts[k].(failures := 1) else s.attempts[k]
    {
      assert AttemptOk(s, k);
      if s.links != [] { assert OwnerOk(s, |s.links| - 1); }
    }
  }

  /** Adding a connection and an attempt undoes neither. */
  lemma GivenUpExtends(s: Session, u: Session, t: Session)
    requires ClosedUpTo(u, |s.links|) && CurrentGivenUp(s, u) && |u.links| == |s.links| && |u.attempts| == |s.attempts|
    requires u.links <= t.links && u.attempts <= t.attempts
    ensures ClosedUpTo(t, |s.links|) && CurrentGivenUp(s, t)
  {
    forall j | 0 <= j < |s.links| ensures t.links[j].conn.closed { assert u.links[j].conn.closed; }
  }

  lemma TransferStep(o: Options, s: Session, c: TransferChoice)
    requires Core(o, s) && !s.ctxDone && !c.cancelled
    ensures Transferred(s, c, TransferContext(s, c))
  {
    CloseCurrentOutcome(o, s);
    var u := CloseCurrent(s);
    var d := TransferContext(s, c);
    if !c.dialOk {
      assert d.session == Refuse(u);
    } else if !c.connectOk {
      assert d.session == Refuse(Adopt(u, c.input));
    } else {
      assert d.session == Register(Adopt(u, c.input));
      assert d.session.links == u.links + [Link(New(c.input, true), Some(|u.attempts|))];
    }
    GivenUpExtends(s, u, d.session);
  }

  /**
    Every outcome of a transfer, from every reachable state. Cancelled by the processor it changes
    nothing; after the session has ended it only fails; otherwise the old connection is closed
    whatever happens next, an attempt that was waiting for it fails, and the new connection carries
    the attempt exactly if the dial and the connection request succeed.
   */
  lemma TransferOutcome(o: Options, es: seq<SessionEvent>, c: TransferChoice)
    ensures var s := Play(o, es); var d := TransferContext(s, c);
      if c.cancelled then d == Did(s, false)
      else if s.ctxDone then d == Did(s.(attempts := s.attempts + [Attempt(None, 1, 0)]), false)
      else Transferred(s, c, d)
  {
    RunKeeps(o, es);
    if !c.cancelled && !Play(o, es).ctxDone {
      TransferStep(o, Play(o, es), c);
    }
  }

  // ---- the first failure in a window ------------------------------------------------------

  predicate FallbackWorks(turn: Turn) {
    turn.discoverOk && !turn.next.cancelled && turn.next.dialOk && turn.next.connectOk
  }

  /** The loop goes on with a new connection that carries an unreported attempt. */
  ghost predicate FellBack(s: Session, turn: Turn, t: Session) {
    var n := |s.links|;
    && |t.links| == n + 1 && ClosedUpTo(t, n)
    && t.links[n] == Link(New(turn.next.input, true), Some(|s.attempts|))
    && |t.attempts| == |s.attempts| + 1 && t.attempts[|s.attempts|] == Attempt(Some(n), 0, 0)
    && t.loop == s.loop.(reading := None) && !t.once && !t.ctxDone
  }

  ghost predicate Ended(t: Session) {
    t.once && t.ctxDone && t.loop.ended && AllClosed(t)
  }

  lemma FallbackBegins(o: Options, s: Session, discoverOk: bool, c: TransferChoice)
    requires Core(o, s) && s.loop.started && !s.ctxDone && !s.fall.active
    ensures Fallback(s, discoverOk, c).session.fall == Fallbacks(true, s.fall.marks + [BeganFallback])
  {
    BeginCore(o, s);
    TransferCore(o, Begin(s), c);
  }

  lemma EndLoopKeepsFlag(s: Session)
    ensures EndLoop(s).fall == s.fall
  {
  }

  lemma FallbackStep(o: Options, s: Session, i: nat, turn: Turn)
    requires Core(o, s) && s.links != [] && i == |s.links| - 1 && !s.ctxDone && !s.fall.active
    requires s.loop.reading.None?
    ensures var t := ReadFailed(s, i, turn);
      && t.fall == Fallbacks(true, s.fall.marks + [BeganFallback])
      && if FallbackWorks(turn) then FellBack(s, turn, t) else Ended(t)
  {
    var u := CloseLink(s, i);
    CloseLinkCore(o, s, i);
    assert !s.once && |u.attempts| == |s.attempts| && |u.links| == |s.links|;
    BeginCore(o, u);
    if FallbackWorks(turn) {
      TransferStep(o, Begin(u), turn.next);
    } else {
      var d := Fallback(u, turn.discoverOk, turn.next);
      assert !d.ok;
      FallbackCore(o, u, turn.discoverOk, turn.next);
      FallbackBegins(o, u, turn.discoverOk, turn.next);
      EndLoopCore(o, d.session);
      EndLoopKeepsFlag(d.session);
    }
  }

  lemma FailedPassCore(o: Options, s: Session, i: nat, turn: Turn)
    requires Inv(o, s) && i < |s.links| && s.loop.reading == Some(i) && Orders(turn.order, s.stage.scene)
    requires Iterate(o.conn, s.links[i].conn, turn.ch).outcome.Error?
    ensures var u := Idle(Advance(s, i, Iterate(o.conn, s.links[i].conn, turn.ch).state));
      Core(o, u) && TakeTurn(o, s, i, turn) == ReadFailed(u, i, turn)
  {
    var p := Iterate(o.conn, s.links[i].conn, turn.ch);
    Handshake.PassEffects(o.conn, s.links[i].conn, turn.ch);
    TurnFails(o, s, i, turn);
    QuietPassCore(o, s, i, p);
    IdleCore(o, Advance(s, i, p.state));
  }

  /**
    The first failure of the current server in a window: with a fallback server that is found,
    dialed and asked, the old connection is closed and the loop goes on with a new one that carries
    an unreported transfer; if any of that fails, or the processor cancels it, the session ends.
   */
  lemma FirstFailureFallsBack(o: Options, es: seq<SessionEvent>, i: nat, turn: Turn)
    requires var s := Play(o, es);
      && !s.ctxDone && !s.fall.active && Orders(turn.order, s.stage.scene)
      && i < |s.links| && i == |s.links| - 1 && s.loop.reading == Some(i)
      && Iterate(o.conn, s.links[i].conn, turn.ch).outcome.Error?
    ensures var s := Play(o, es); var t := TakeTurn(o, s, i, turn);
      && t.fall == Fallbacks(true, s.fall.marks + [BeganFallback])
      && if FallbackWorks(turn) then FellBack(s, turn, t) else Ended(t)
  {
    var s := Play(o, es);
    RunKeeps(o, es);
    FailedPassCore(o, s, i, turn);
    FallbackStep(o, Idle(Advance(s, i, Iterate(o.conn, s.links[i].conn, turn.ch).state)), i, turn);
  }

  /** The failure of a superseded connection is forgotten: the loop is free to pick the current one. */
  lemma SupersededFailureIsForgotten(o: Options, es: seq<SessionEvent>, i: nat, turn: Turn)
    requires var s := Play(o, es);
      && Orders(turn.order, s.stage.scene) && i < |s.links| - 1 && s.loop.reading == Some(i)
      && Iterate(o.conn, s.links[i].conn, turn.ch).outcome.Error?
    ensures var s := Play(o, es); var t := TakeTurn(o, s, i, turn);
      && t == s.(loop := s.loop.(reading := None), links := t.links) && |t.links| == |s.links|
      && forall j :: 0 <= j < |s.links| && j != i ==> t.links[j] == s.links[j]
  {
    RunKeeps(o, es);
    FailedPassCore(o, Play(o, es), i, turn);
  }

  // ---- completed transfers ----------------------------------------------------------------

  /** A connection about to complete its handshake has an attempt that has not reported. */
  lemma PendingOwner(s: Session, i: nat, p: Pass)
    requires Wired(s) && Outcomes(s) && i < |s.links|
    requires Handshake.PassEffect(s.links[i].conn, p) && Fires(s.links[i].conn, p.state)
    ensures var k := s.links[i].owner; k.Some? && k.value < |s.attempts| && s.attempts[k.value] == Attempt(Some(i), 0, 0)
  {
    assert OwnerOk(s, i);
    assert AttemptOk(s, s.links[i].owner.value);
  }

  lemma CompletionReportsStep(o: Options, s: Session, i: nat, turn: Turn)
    requires Inv(o, s) && i < |s.links| && s.loop.reading == Some(i) && Orders(turn.order, s.stage.scene)
    requires Fires(s.links[i].conn, Iterate(o.conn, s.links[i].conn, turn.ch).state)
    ensures s.links[i].owner.Some? && s.links[i].owner.value < |s.attempts|
    ensures var t := TakeTurn(o, s, i, turn); var k := s.links[i].owner.value;
      && t.attempts == s.attempts[k := if turn.spawnOk then Attempt(Some(i), 0, 1) else Attempt(Some(i), 1, 0)]
      && t.fall == if turn.spawnOk then Fallbacks(false, s.fall.marks + [CompletedTransfer]) else s.fall
  {
    Handshake.PassEffects(o.conn, s.links[i].conn, turn.ch);
    TurnCompletes(o, s, i, turn);
    PendingOwner(s, i, Iterate(o.conn, s.links[i].conn, turn.ch));
  }

  /**
    The handshake of a transfer's connection completing reports that transfer and no other: as a
    completion, which also ends a fallback, if the player could be spawned there, else as a failure.
   */
  lemma CompletionReports(o: Options, es: seq<SessionEvent>, i: nat, turn: Turn)
    requires var s := Play(o, es);
      && i < |s.links| && s.loop.reading == Some(i) && Orders(turn.order, s.stage.scene)
      && Fires(s.links[i].conn, Iterate(o.conn, s.links[i].conn, turn.ch).state)
    ensures var s := Play(o, es); s.links[i].owner.Some? && s.links[i].owner.value < |s.attempts|
    ensures var s := Play(o, es); var t := TakeTurn(o, s, i, turn); var k := s.links[i].owner.value;
      && t.attempts == s.attempts[k := if turn.spawnOk then Attempt(Some(i), 0, 1) else Attempt(Some(i), 1, 0)]
      && t.fall == if turn.spawnOk then Fallbacks(false, s.fall.marks + [CompletedTransfer]) else s.fall
  {
    RunKeeps(o, es);
    CompletionReportsStep(o, Play(o, es), i, turn);
  }

  // ---- items ------------------------------------------------------------------------------

  /** A turn whose pass returns an item does with the session exactly what the item calls for. */
  lemma ReturningTurn(o: Options, s: Session, i: nat, turn: Turn, item: Item)
    requires Inv(o, s) && i < |s.links| && s.loop.reading == Some(i) && Orders(turn.order, s.stage.scene)
    requires Iterate(o.conn, s.links[i].conn, turn.ch).outcome == Returned(item)
    ensures var u := Take(Advance(s, i, Iterate(o.conn, s.links[i].conn, turn.ch).state), i, item, turn.cancels);
      Core(o, u) && TakeTurn(o, s, i, turn) == Process(o, u, i, item, turn)
  {
    var p := Iterate(o.conn, s.links[i].conn, turn.ch);
    Handshake.PassEffects(o.conn, s.links[i].conn, turn.ch);
    QuietPassCore(o, s, i, p);
    TakeCore(o, Advance(s, i, p.state), i, item, turn.cancels);
  }

  /** A Transfer packet from a server is obeyed: it closes that server and connects to the next. */
  lemma TransferPacketTransfers(o: Options, es: seq<SessionEvent>, i: nat, addr: string, turn: Turn)
    requires var s := Play(o, es);
      && Orders(turn.order, s.stage.scene) && i < |s.links| && s.loop.reading == Some(i)
      && Iterate(o.conn, s.links[i].conn, turn.ch).outcome == Returned(Decoded(Transfer(addr)))
      && !s.ctxDone && !turn.next.cancelled && turn.next.dialOk && turn.next.connectOk
    ensures var s := Play(o, es); var t := TakeTurn(o, s, i, turn);
      && |t.links| == |s.links| + 1 && ClosedUpTo(t, |s.links|)
      && t.links[|s.links|] == Link(New(turn.next.input, true), Some(|s.attempts|))
      && |t.attempts| == |s.attempts| + 1 && t.attempts[|s.attempts|] == Attempt(Some(|s.links|), 0, 0)
      && t.stage == s.stage && t.fall == s.fall && t.loop == s.loop.(reading := None)
  {
    var s := Play(o, es);
    RunKeeps(o, es);
    var item := Decoded(Transfer(addr));
    ReturningTurn(o, s, i, turn, item);
    var u := Take(Advance(s, i, Iterate(o.conn, s.links[i].conn, turn.ch).state), i, item, turn.cancels);
    SessionDelivery.ItemOutcome(o, u, i, item, turn);
    TransferStep(o, u, turn.next);
  }

  // ---- turns ------------------------------------------------------------------------------

  /** A loop that has picked a connection takes its turn, and a transfer that is asked for is made. */
  ghost predicate Obeyed(o: Options, s: Session, turn: Turn, c: TransferChoice) {
    && (s.loop.reading.Some? && !s.loop.ended ==>
          s.loop.reading.value < |s.links| && Next(o, s, LoopPass(turn)) == TakeTurn(o, s, s.loop.reading.value, turn))
    && (s.loop.started ==> Next(o, s, TransferTo(c)) == TransferContext(s, c).session)
  }

  lemma ObeyedStep(o: Options, s: Session, turn: Turn, c: TransferChoice)
    requires Wired(s) && !s.crashed
    ensures Obeyed(o, s, turn, c)
  {
  }

  lemma TurnsHappen(o: Options, es: seq<SessionEvent>, turn: Turn, c: TransferChoice)
    requires !Play(o, es).crashed
    ensures Obeyed(o, Play(o, es), turn, c)
  {
    RunKeeps(o, es);
    ObeyedStep(o, Play(o, es), turn, c);
  }

  /** A turn whose pass loops without completing a transfer's handshake changes that connection alone. */
  lemma LoopingTurnOutcome(o: Options, s: Session, i: nat, turn: Turn)
    requires i < |s.links| && Orders(turn.order, s.stage.scene)
    requires var p := Iterate(o.conn, s.links[i].conn, turn.ch);
             p.outcome.Again? && !(s.links[i].conn.callback && !s.links[i].conn.connected && p.state.connected)
    ensures var c := Iterate(o.conn, s.links[i].conn, turn.ch).state;
            TakeTurn(o, s, i, turn) == s.(links := s.links[i := s.links[i].(conn := c)])
  {
  }

  // ---- login, closing and the top of the loop ---------------------------------------------

  /** The login dial creates the first connection and starts the loop, or ends it. */
  lemma LoginOutcome(o: Options, es: seq<SessionEvent>, ok: bool, input: seq<Byte>)
    requires var s := Play(o, es); !s.crashed && !s.loop.started
    ensures var s := Play(o, es); var t := Next(o, s, Login(ok, input));
      && s.links == [] && t.loop.started && t.loop.reading.None?
      && if ok && !s.ctxDone then t.links == [Link(New(input, false), None)] && !t.loop.ended
         else t.links == [] && t.loop.ended
  {
    RunKeeps(o, es);
  }

  /**
    The login connection is spawned if and only if it has connected, is open and is not yet spawned,
    which also means that no transfer has replaced it.
   */
  lemma SpawnLoginIff(o: Options, es: seq<SessionEvent>)
    requires !Play(o, es).crashed && Play(o, es).links != []
    ensures var s := Play(o, es); var c := s.links[0].conn; var t := Next(o, s, SpawnLogin);
      if s.links[0].owner.None? && c.connected && !c.closed && !c.spawned
      then
        && |s.links| == 1 && t.links == [s.links[0].(conn := c.(spawned := true))]
        && t.stage == s.stage.(source := Some(0)) && t == s.(links := t.links, stage := t.stage)
      else t == s
  {
    RunKeeps(o, es);
  }

  /** Shutting down closes everything, cancels the context and gives up the attempt in progress. */
  lemma ShutOutcome(o: Options, s: Session)
    requires Core(o, s)
    ensures var t := Shut(s);
      && t.once && t.ctxDone && |t.links| == |s.links| && AllClosed(t)
      && |t.attempts| == |s.attempts| && CurrentGivenUp(s, t)
  {
    if s.once {
      forall k: nat | k < |s.attempts| ensures !Connecting(s, k) {}
    } else {
      CloseCurrentOutcome(o, s);
    }
  }

  lemma EndLoopOutcome(o: Options, s: Session)
    requires Core(o, s)
    ensures Ended(EndLoop(s))
  {
    ShutOutcome(o, s);
  }

  lemma LoopTopStep(o: Options, s: Session)
    requires Core(o, s) && !s.crashed && s.links != [] && !s.loop.ended && s.loop.reading.None?
    ensures var t := Next(o, s, LoopTop);
      if s.ctxDone then Ended(t) else t == s.(loop := s.loop.(reading := Some(|s.links| - 1)))
  {
    EndLoopOutcome(o, s);
  }

  /** At the top the loop takes up the newest connection, or ends with the session. */
  lemma LoopTopOutcome(o: Options, es: seq<SessionEvent>)
    requires var s := Play(o, es); !s.crashed && s.links != [] && !s.loop.ended && s.loop.reading.None?
    ensures var s := Play(o, es); var t := Next(o, s, LoopTop);
      if s.ctxDone then Ended(t) else t == s.(loop := s.loop.(reading := Some(|s.links| - 1)))
  {
    RunKeeps(o, es);
    LoopTopStep(o, Play(o, es));
  }

  ghost predicate SessionClosed(s: Session, t: Session) {
    && t.once && t.ctxDone && |t.links| == |s.links| && AllClosed(t)
    && |t.attempts| == |s.attempts| && CurrentGivenUp(s, t)
  }

  lemma CloseSessionStep(o: Options, s: Session)
    requires Core(o, s) && !s.crashed
    ensures SessionClosed(s, Next(o, s, CloseSession))
  {
    ShutOutcome(o, s);
  }

  /** Closing the session closes every connection, cancels its context and gives up the attempt in progress. */
  lemma CloseSessionOutcome(o: Options, es: seq<SessionEvent>)
    requires !Play(o, es).crashed
    ensures SessionClosed(Play(o, es), Next(o, Play(o, es), CloseSession))
  {
    RunKeeps(o, es);
    CloseSessionStep(o, Play(o, es));
  }

  /** A client that goes away only cancels the context; the loop ends when it next comes to its top. */
  lemma ClientGoneEndsLoop(o: Options, es: seq<SessionEvent>)
    requires var s := Play(o, es); !s.crashed && s.links != [] && !s.loop.ended && s.loop.reading.None?
    ensures Ended(Play(o, es + [ClientGone] + [LoopTop]))
  {
    PlayLast(o, es, ClientGone);
    PlayLast(o, es + [ClientGone], LoopTop);
    LoopTopOutcome(o, es + [ClientGone]);
  }

  /** Connection `i` is closed, and the attempt that was waiting for it has failed. */
  ghost predicate ServerClosed(s: Session, i: nat, t: Session)
    requires i < |s.links|
  {
    var l := s.links[i];
    && t.links == s.links[i := l.(conn := l.conn.(closed := true))]
    && |t.attempts| == |s.attempts| && SameElsewhere(s, t)
    && forall k: nat :: k < |s.attempts| ==>
         t.attempts[k] == if l.owner == Some(k) && !Settled(l.conn) then s.attempts[k].(failures := 1) else s.attempts[k]
  }

  lemma CloseServerStep(o: Options, s: Session, i: nat)
    requires Core(o, s) && i < |s.links| && !s.crashed
    ensures ServerClosed(s, i, Next(o, s, CloseServer(i)))
  {
    var t, l := CloseLink(s, i), s.links[i];
    assert OwnerOk(s, i);
    forall k: nat | k < |s.attempts|
      ensures t.attempts[k] == if l.owner == Some(k) && !Settled(l.conn) then s.attempts[k].(failures := 1) else s.attempts[k]
    {
      assert AttemptOk(s, k);
    }
  }

  /** Closing one server connection closes that one and fails the attempt that was waiting for it. */
  lemma CloseServerOutcome(o: Options, es: seq<SessionEvent>, i: nat)
    requires !Play(o, es).crashed && i < |Play(o, es).links|
    ensures ServerClosed(Play(o, es), i, Next(o, Play(o, es), CloseServer(i)))
  {
    RunKeeps(o, es);
    CloseServerStep(o, Play(o, es), i);
  }
}
