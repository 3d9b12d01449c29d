/**
  What can bring a session's process down. A panic in one of its connections is the only cause, and
  without protocol conversion a connection that carries a transfer panics on an empty frame only.
 */
module SessionPanics {
  import opened Bytes
  import opened ServerConn
  import opened SessionMachine
  import opened SessionFrames
  import Handshake
  import SessionProofs
  import Tracker

  /** The process is down exactly if a connection has panicked. */
  ghost predicate CrashExplained(s: Session) {
    s.crashed <==> exists i :: 0 <= i < |s.links| && Crashed(s.links[i].conn)
  }

  /** No connection of a registered transfer has closed a signal twice. */
  ghost predicate TransfersSafe(s: Session) {
    forall i :: 0 <= i < |s.links| && s.links[i].owner.Some? ==> s.links[i].conn.panic != DoubleClose
  }

  lemma SamePanicsKeep(s: Session, t: Session)
    requires SamePanics(s, t)
    ensures CrashExplained(s) ==> CrashExplained(t)
    ensures TransfersSafe(s) ==> TransfersSafe(t)
  {
  }

  lemma QuietTurnCalm(o: Options, s: Session, i: nat, turn: Turn, p: Pass)
    requires i < |s.links| && p == Iterate(o.conn, s.links[i].conn, turn.ch) && !p.outcome.Crash?
    requires p.state.panic == s.links[i].conn.panic
    ensures SamePanics(s, React(o, AfterPass(o, s, i, turn), i, p.outcome, turn))
  {
    var t := AfterPass(o, s, i, turn);
    AfterPassLinks(o, s, i, turn);
    ReactCalm(o, t, i, p.outcome, turn);
  }

  /** Connection `i` has panicked in a pass, and the process is down. */
  ghost predicate BroughtDown(o: Options, s: Session, i: nat, ch: Choice, t: Session) {
    && i < |s.links| && t.crashed && Crashed(Iterate(o.conn, s.links[i].conn, ch).state)
    && t.links == s.links[i := s.links[i].(conn := Iterate(o.conn, s.links[i].conn, ch).state)]
  }

  /** A turn whose pass panics brings the process down; any other adds no panic. */
  lemma TurnCalm(o: Options, s: Session, i: nat, turn: Turn)
    requires i < |s.links| && Handshake.Inv(o.conn, s.links[i].conn) && !Crashed(s.links[i].conn)
    ensures var t := TakeTurn(o, s, i, turn); SamePanics(s, t) || BroughtDown(o, s, i, turn.ch, t)
  {
    if Tracker.Orders(turn.order, s.stage.scene) {
      var p := Iterate(o.conn, s.links[i].conn, turn.ch);
      Handshake.PassEffects(o.conn, s.links[i].conn, turn.ch);
      if p.outcome.Crash? {
        AfterPassLinks(o, s, i, turn);
        assert TakeTurn(o, s, i, turn) == AfterPass(o, s, i, turn).(crashed := true);
      } else {
        QuietTurnCalm(o, s, i, turn, p);
      }
    }
  }

  lemma PanickedTransfersSafe(o: Options, s: Session, t: Session, i: nat, ch: Choice)
    requires TransfersSafe(s) && SessionProofs.Wired(s) && !o.conn.syncProtocol
    requires i < |s.links| && Handshake.Inv(o.conn, s.links[i].conn) && !Crashed(s.links[i].conn)
    requires t.links == s.links[i := s.links[i].(conn := Iterate(o.conn, s.links[i].conn, ch).state)]
    ensures TransfersSafe(t)
  {
    if s.links[i].owner.Some? {
      Handshake.PassNoDoubleClose(o.conn, s.links[i].conn, ch);
    }
  }

  lemma TurnPanics(o: Options, s: Session, i: nat, turn: Turn)
    requires SessionProofs.Inv(o, s) && i < |s.links| && !s.crashed && CrashExplained(s)
    ensures CrashExplained(TakeTurn(o, s, i, turn))
    ensures TransfersSafe(s) && !o.conn.syncProtocol ==> TransfersSafe(TakeTurn(o, s, i, turn))
  {
    assert Handshake.Inv(o.conn, s.links[i].conn) && !Crashed(s.links[i].conn);
    TurnCalm(o, s, i, turn);
    var t := TakeTurn(o, s, i, turn);
    if SamePanics(s, t) {
      SamePanicsKeep(s, t);
    } else {
      assert Crashed(t.links[i].conn);
      if TransfersSafe(s) && !o.conn.syncProtocol {
        PanickedTransfersSafe(o, s, t, i, turn.ch);
      }
    }
  }

  lemma OtherPanics(o: Options, s: Session, e: SessionEvent)
    requires CrashExplained(s) && !s.crashed && !e.LoopPass?
    ensures CrashExplained(Next(o, s, e))
    ensures TransfersSafe(s) ==> TransfersSafe(Next(o, s, e))
  {
    OtherCalm(o, s, e);
    SamePanicsKeep(s, Next(o, s, e));
  }

  lemma StepPanics(o: Options, s: Session, e: SessionEvent)
    requires SessionProofs.Inv(o, s) && CrashExplained(s)
    ensures CrashExplained(Next(o, s, e))
    ensures TransfersSafe(s) && !o.conn.syncProtocol ==> TransfersSafe(Next(o, s, e))
  {
    if s.crashed {
    } else if !e.LoopPass? {
      OtherPanics(o, s, e);
    } else if !s.loop.ended && s.loop.reading.Some? {
      TurnPanics(o, s, s.loop.reading.value, e.turn);
    }
  }

  lemma {:induction false} RunExplains(o: Options, es: seq<SessionEvent>)
    ensures CrashExplained(Play(o, es))
    ensures !o.conn.syncProtocol ==> TransfersSafe(Play(o, es))
  {
    if es != [] {
      var init, e := es[..|es| - 1], es[|es| - 1];
      RunExplains(o, init);
      SessionProofs.RunKeeps(o, init);
      StepPanics(o, Play(o, init), e);
    }
  }

  /**
    In every run the process is down if and only if some connection has panicked. A connection has
    closed a signal twice if and only if a PlayStatus overran its handshake, and without SyncProtocol
    that connection is not a registered transfer's: it is the login's, or one whose connection
    request failed.
   */
  lemma CrashIff(o: Options, es: seq<SessionEvent>)
    ensures var s := Play(o, es);
      && (s.crashed <==> exists i :: 0 <= i < |s.links| && Crashed(s.links[i].conn))
      && (forall i :: 0 <= i < |s.links| ==>
            (s.links[i].conn.panic == DoubleClose <==>
               Handshake.Overrun(Handshake.Script(o.conn), s.links[i].conn.log.seen)))
      && (!o.conn.syncProtocol ==>
            forall i :: 0 <= i < |s.links| && s.links[i].owner.Some? ==> s.links[i].conn.panic != DoubleClose)
  {
    RunExplains(o, es);
    SessionProofs.RunKeeps(o, es);
    forall i | 0 <= i < |Play(o, es).links|
      ensures Handshake.Tracks(o.conn, Play(o, es).links[i].conn)
    {
      assert Handshake.Inv(o.conn, Play(o, es).links[i].conn);
    }
  }
}
