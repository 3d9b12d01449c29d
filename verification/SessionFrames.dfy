/**
  What the steps of a session leave alone. Closing, dialing, transferring, falling back, forwarding
  and shutting down never make a connection panic and never take an item from one: only a pass of
  `ReadPacket` does.
 */
module SessionFrames {
  import opened Bytes
  import opened ServerConn
  import opened SessionMachine

  /** Nothing panics between the two; only a connection that has not panicked gets an owner. */
  ghost predicate SamePanics(s: Session, t: Session) {
    && t.crashed == s.crashed && |s.links| <= |t.links|
    && (forall i :: 0 <= i < |s.links| ==> t.links[i].conn.panic == s.links[i].conn.panic)
    && (forall i :: 0 <= i < |s.links| ==> t.links[i].owner == s.links[i].owner || !Crashed(t.links[i].conn))
    && (forall i :: |s.links| <= i < |t.links| ==> !Crashed(t.links[i].conn))
  }

  /** No connection has handed out an item between the two. */
  ghost predicate SameLogs(s: Session, t: Session) {
    && t.taken == s.taken && |s.links| <= |t.links|
    && (forall i :: 0 <= i < |s.links| ==> t.links[i].conn.log.returned == s.links[i].conn.log.returned)
    && (forall i :: |s.links| <= i < |t.links| ==> t.links[i].conn.log.returned == [])
  }

  ghost predicate Calm(s: Session, t: Session) {
    SamePanics(s, t) && SameLogs(s, t)
  }

  lemma CalmTrans(s: Session, t: Session, u: Session)
    requires Calm(s, t) && Calm(t, u)
    ensures Calm(s, u)
  {
  }

  lemma CloseLinkCalm(s: Session, i: nat)
    requires i < |s.links|
    ensures Calm(s, CloseLink(s, i)) && CloseLink(s, i).stage == s.stage
  {
  }

  lemma CloseCurrentCalm(s: Session)
    ensures Calm(s, CloseCurrent(s)) && |CloseCurrent(s).links| == |s.links| && CloseCurrent(s).stage == s.stage
  {
    if s.links != [] {
      CloseLinkCalm(s, |s.links| - 1);
    }
  }

  lemma DialCalm(s: Session, ok: bool, input: seq<Byte>)
    ensures var d := Dial(s, ok, input);
      Calm(s, d.session) && d.session.stage == s.stage && (d.ok ==> |d.session.links| == |s.links| + 1)
  {
    CloseCurrentCalm(s);
  }

  lemma TransferCalm(s: Session, c: TransferChoice)
    ensures var t := TransferContext(s, c).session; Calm(s, t) && t.stage == s.stage
  {
    if !c.cancelled {
      DialCalm(s, c.dialOk, c.input);
      var d := Dial(s, c.dialOk, c.input);
      if d.ok && c.connectOk {
        assert d.session.links[|d.session.links| - 1] == Link(New(c.input, false), None);
        CalmTrans(s, d.session, Register(d.session));
      }
    }
  }

  lemma EndLoopCalm(s: Session)
    ensures Calm(s, Shut(s)) && Calm(s, EndLoop(s)) && Shut(s).stage == EndLoop(s).stage == s.stage
  {
    CloseCurrentCalm(s);
  }

  lemma FallbackCalm(s: Session, discoverOk: bool, c: TransferChoice)
    ensures var t := Fallback(s, discoverOk, c).session; Calm(s, t) && t.stage == s.stage
  {
    TransferCalm(Begin(s), c);
    CalmTrans(s, Begin(s), TransferContext(Begin(s), c).session);
  }

  lemma ReadFailedCalm(s: Session, i: nat, turn: Turn)
    requires i < |s.links|
    ensures Calm(s, ReadFailed(s, i, turn)) && ReadFailed(s, i, turn).stage == s.stage
  {
    if i == |s.links| - 1 {
      var c := CloseLink(s, i);
      var d := Fallback(c, turn.discoverOk, turn.next);
      CloseLinkCalm(s, i);
      FallbackCalm(c, turn.discoverOk, turn.next);
      CalmTrans(s, c, d.session);
      EndLoopCalm(d.session);
      CalmTrans(s, d.session, EndLoop(d.session));
    }
  }

  lemma ForwardCalm(o: Options, s: Session, i: nat, pk: Packet, clientOk: bool)
    ensures Calm(s, Forward(o, s, i, pk, clientOk))
  {
    EndLoopCalm(s);
    if clientOk {
      assert Forward(o, s, i, pk, clientOk).links == s.links;
    } else {
      assert Forward(o, s, i, pk, clientOk).links == EndLoop(s).links;
    }
  }

  lemma ProcessCalm(o: Options, s: Session, i: nat, item: Item, turn: Turn)
    ensures Calm(s, Process(o, s, i, item, turn))
  {
    if item.Decoded? && item.pk.Transfer? {
      TransferCalm(s, turn.next);
    } else if item.Decoded? && !item.pk.Flush? {
      ForwardCalm(o, s, i, item.pk, turn.clientOk);
    } else {
      EndLoopCalm(s);
    }
  }

  /** The session once the loop has taken what a pass returned, if anything. */
  function Received(s: Session, i: nat, out: Outcome, turn: Turn): Session {
    match out
    case Again => s
    case Crash => s
    case Error => Idle(s)
    case Returned(item) => Take(s, i, item, turn.cancels)
  }

  /** Whatever follows a pass that did not panic is calm. */
  lemma ReactCalm(o: Options, s: Session, i: nat, out: Outcome, turn: Turn)
    requires i < |s.links| && !out.Crash?
    ensures Calm(Received(s, i, out, turn), React(o, s, i, out, turn))
    ensures SamePanics(s, React(o, s, i, out, turn))
  {
    match out
    case Again =>
    case Error => ReadFailedCalm(Idle(s), i, turn);
    case Returned(item) => ProcessCalm(o, Take(s, i, item, turn.cancels), i, item, turn);
  }

  lemma AfterPassLinks(o: Options, s: Session, i: nat, turn: Turn)
    requires i < |s.links|
    ensures var t := AfterPass(o, s, i, turn);
      && t.crashed == s.crashed && t.taken == s.taken && t.stage.delivered == s.stage.delivered
      && t.links == s.links[i := s.links[i].(conn := Iterate(o.conn, s.links[i].conn, turn.ch).state)]
  {
  }

  lemma SpawnLoginCalm(s: Session)
    requires CanSpawnLogin(s) && !Crashed(s.links[0].conn)
    ensures Calm(s, SpawnLink(s)) && SpawnLink(s).stage.delivered == s.stage.delivered
  {
    var c := DoSpawn(s.links[0].conn).state;
    assert c.panic == NoPanic && c.log == s.links[0].conn.log;
    assert SpawnLink(s).links == s.links[0 := s.links[0].(conn := c)];
  }

  lemma LoginCalm(s: Session, ok: bool, input: seq<Byte>)
    ensures Calm(s, LoginDial(s, ok, input)) && LoginDial(s, ok, input).stage == s.stage
  {
    DialCalm(s, ok, input);
    assert LoginDial(s, ok, input).links == Dial(s, ok, input).session.links;
  }

  /** Every step but a turn of the loop is calm and delivers nothing. */
  lemma OtherCalm(o: Options, s: Session, e: SessionEvent)
    requires !e.LoopPass? && (e.SpawnLogin? && s.links != [] && !s.crashed ==> !Crashed(s.links[0].conn))
    ensures Calm(s, Next(o, s, e)) && Next(o, s, e).stage.delivered == s.stage.delivered
  {
    if !s.crashed {
      match e
      case Login(ok, input) => if !s.loop.started { LoginCalm(s, ok, input); }
      case SpawnLogin => if CanSpawnLogin(s) { SpawnLoginCalm(s); }
      case TransferTo(c) => if s.loop.started { TransferCalm(s, c); }
      case LoopTop => EndLoopCalm(s);
      case CloseServer(i) => if i < |s.links| { CloseLinkCalm(s, i); }
      case CloseSession => EndLoopCalm(s);
      case ClientGone =>
    }
  }
}
