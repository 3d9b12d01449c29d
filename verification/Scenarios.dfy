/**
  Concrete runs against a small server, for every protocol ID and with SyncProtocol on or off: the
  login path reaching its panic, a login and a transfer reaching their completion, which shows that
  the theorems about them are not vacuous, and a transfer superseded by the next one.
 */
module Scenarios {
  import opened Bytes
  import opened Framing
  import opened ServerConn
  import opened SessionMachine
  import Batch
  import Handshake
  import SessionProofs
  import Tracker

  function TinyPacket(b: seq<Byte>): Option<Packet> {
    if b == [0] then Some(ConnectionResponse(1, 1))
    else if b == [1] then Some(StartGame(NO_GAME_DATA.world))
    else if b == [2] then Some(ItemRegistry([]))
    else if b == [3] then Some(ChunkRadiusUpdated(4))
    else if b == [4] then Some(PlayStatus(0))
    else None
  }

  /** A server whose packets are one byte each and need no conversion. */
  function TinyServer(syncProtocol: bool, protocolID: int): Config {
    Config(syncProtocol, protocolID, Batch.Codec(b => b, b => Some(b)), (shield, b) => TinyPacket(b), pk => [pk])
  }

  function TinyCode(id: PacketId): Byte {
    match id
    case IdConnectionResponse => 0
    case IdStartGame => 1
    case IdItemRegistry => 2
    case IdChunkRadiusUpdated => 3
    case _ => 4
  }

  ghost predicate Tiny(cfg: Config) {
    cfg == TinyServer(cfg.syncProtocol, cfg.protocolID)
  }

  /** The number of stages of a handshake: five from protocol 776 on. */
  function Stages(cfg: Config): nat {
    |Handshake.Script(cfg)|
  }

  function TinyFrame(cfg: Config, stage: nat): seq<Byte>
    requires stage < Stages(cfg)
  {
    Frame([1] + [TinyCode(Handshake.Script(cfg)[stage])])
  }

  /** The frames from a given stage on. */
  function TinyWire(cfg: Config, stage: nat): seq<Byte>
    decreases Stages(cfg) - stage
  {
    if stage >= Stages(cfg) then [] else TinyFrame(cfg, stage) + TinyWire(cfg, stage + 1)
  }

  const PLAY_STATUS: seq<Byte> := Frame([1] + [4])

  const ALL_WELL: Choice := Choice(false, true, true)

  /** One pass over one decodable packet that conversion leaves alone. */
  lemma OnePass(cfg: Config, s: State, b: seq<Byte>, pk: Packet, rest: seq<Byte>)
    requires Converted(cfg, pk) == [pk] && !Crashed(s) && !s.closed && !s.spawned
    requires s.input == Frame([1] + b) + rest && |b| < 256
    requires cfg.decode(s.hs.shieldID, b) == Some(pk)
    ensures var r := HandleOne(cfg, Arrived(s, Decoded(pk), rest), pk, true);
            Iterate(cfg, s, ALL_WELL) ==
              Pass(r.state, if Crashed(r.state) then Crash else if r.ok then Again else Error)
  {
    FrameRoundTripIff([1] + b, rest);
    assert ([1] + b)[1..] == b;
    assert Read(cfg, s.input, s.hs.shieldID, true) == ReadItem(Decoded(pk), rest);
    var t := Arrived(s, Decoded(pk), rest);
    assert HandleAll(cfg, t, [pk], true) == HandleOne(cfg, t, pk, true);
  }

  /** A connection to that server that has completed `stage` stages and is not spawned. */
  ghost predicate AtStage(cfg: Config, s: State, input: seq<Byte>, stage: nat, callback: bool) {
    && !Crashed(s) && !s.closed && !s.spawned && s.callback == callback && s.input == input
    && s.hs.expected == [if stage < Stages(cfg) then Handshake.Script(cfg)[stage] else IdPlayStatus]
    && (s.connected <==> stage == Stages(cfg))
  }

  /** Handling the packet that a stage expects leads to the next stage. */
  lemma StageHandled(cfg: Config, s: State, stage: nat, pk: Packet, callback: bool)
    requires stage < Stages(cfg) - 1 && AtStage(cfg, s, s.input, stage, callback)
    requires Id(pk) == Handshake.Script(cfg)[stage]
    ensures var r := HandleOne(cfg, s, pk, true); r.ok && AtStage(cfg, r.state, s.input, stage + 1, callback)
  {
    match pk
    case ConnectionResponse(_, _) =>
    case StartGame(_) => if cfg.protocolID >= 776 {}
    case ItemRegistry(_) =>
    case ChunkRadiusUpdated(_) =>
  }

  lemma EarlyPass(cfg: Config, s: State, stage: nat, rest: seq<Byte>, callback: bool)
    requires Tiny(cfg) && stage < Stages(cfg) - 1 && AtStage(cfg, s, TinyFrame(cfg, stage) + rest, stage, callback)
    ensures var p := Iterate(cfg, s, ALL_WELL); p.outcome.Again? && AtStage(cfg, p.state, rest, stage + 1, callback)
  {
    var code := TinyCode(Handshake.Script(cfg)[stage]);
    var pk := TinyPacket([code]).value;
    OnePass(cfg, s, [code], pk, rest);
    StageHandled(cfg, Arrived(s, Decoded(pk), rest), stage, pk, callback);
  }

  /** The last stage: connected, and spawned exactly if there is a callback. */
  lemma LastPass(cfg: Config, s: State, rest: seq<Byte>, callback: bool)
    requires Tiny(cfg) && AtStage(cfg, s, PLAY_STATUS + rest, Stages(cfg) - 1, callback)
    ensures var p := Iterate(cfg, s, ALL_WELL);
            && p.outcome.Again? && p.state.connected && p.state.spawned == callback && !p.state.closed
            && (!callback ==> AtStage(cfg, p.state, rest, Stages(cfg), false))
  {
    OnePass(cfg, s, [4], PlayStatus(0), rest);
    if callback {}
  }

  lemma ExtraPass(cfg: Config, s: State, rest: seq<Byte>)
    requires Tiny(cfg) && AtStage(cfg, s, PLAY_STATUS + rest, Stages(cfg), false)
    ensures Iterate(cfg, s, ALL_WELL).state.panic == DoubleClose
  {
    OnePass(cfg, s, [4], PlayStatus(0), rest);
  }

  // ---- the login panic --------------------------------------------------------------------

  lemma RunFirst(cfg: Config, s: State, e: Event, es: seq<Event>, t: State)
    requires t == Step(cfg, s, e)
    ensures Run(cfg, s, [e] + es) == Run(cfg, t, es)
  {
    assert ([e] + es)[1..] == es;
  }

  lemma {:induction false} TinyLogin(cfg: Config, s: State, stage: nat, rest: seq<Byte>) returns (t: State, es: seq<Event>)
    requires Tiny(cfg) && stage <= Stages(cfg) && AtStage(cfg, s, TinyWire(cfg, stage) + rest, stage, false)
    ensures AtStage(cfg, t, rest, Stages(cfg), false) && t == Run(cfg, s, es)
    decreases Stages(cfg) - stage
  {
    if stage == Stages(cfg) {
      t, es := s, [];
      assert TinyWire(cfg, stage) + rest == rest;
    } else {
      var after := TinyWire(cfg, stage + 1) + rest;
      assert TinyWire(cfg, stage) + rest == TinyFrame(cfg, stage) + after;
      if stage < Stages(cfg) - 1 {
        EarlyPass(cfg, s, stage, after, false);
      } else {
        LastPass(cfg, s, after, false);
      }
      var s1 := Iterate(cfg, s, ALL_WELL).state;
      t, es := TinyLogin(cfg, s1, stage + 1, rest);
      RunFirst(cfg, s, MakePass(ALL_WELL), es, s1);
      es := [MakePass(ALL_WELL)] + es;
    }
  }

  /** The login path does not exclude the panic: a server that sends PlayStatus twice causes it. */
  lemma LoginPathCanPanic(cfg: Config) returns (es: seq<Event>)
    requires Tiny(cfg)
    ensures Run(cfg, New(TinyWire(cfg, 0) + PLAY_STATUS, false), es).panic == DoubleClose
  {
    var last := PLAY_STATUS + [];
    assert last == PLAY_STATUS;
    var s := New(TinyWire(cfg, 0) + last, false);
    var t;
    t, es := TinyLogin(cfg, s, 0, last);
    ExtraPass(cfg, t, []);
    var e := MakePass(ALL_WELL);
    Handshake.RunAppend(cfg, s, es, [e]);
    assert Run(cfg, t, [e]) == Step(cfg, t, e);
    es := es + [e];
  }

  // ---- a completed transfer ---------------------------------------------------------------

  const GOOD_TURN: Turn :=
    Turn(ALL_WELL, true, Tracker.ClearOrder([], [], [], [], []), false, true, true, TransferChoice(true, false, false, []))

  function GoodTransfer(o: Options): TransferChoice {
    TransferChoice(false, true, true, TinyWire(o.conn, 0))
  }

  /** Log in, ask for a transfer, and let the server loop pick its connection. */
  function Opening(o: Options): seq<SessionEvent> {
    [Login(true, []), TransferTo(GoodTransfer(o)), LoopTop]
  }

  /** The second connection is the loop's, carries the only transfer, and has completed `stage` stages. */
  ghost predicate Transferring(o: Options, s: Session, stage: nat) {
    && !s.crashed && s.loop == Loop(Some(1), true, false) && |s.links| == 2 && s.links[0].conn.closed && !s.ctxDone
    && s.links[1].owner == Some(0) && AtStage(o.conn, s.links[1].conn, TinyWire(o.conn, stage), stage, true)
    && s.attempts == [Attempt(Some(1), 0, 0)] && s.fall == Fallbacks(false, [])
    && s.stage == Stage(Tracker.EMPTY, Tracker.EMPTY, None, [])
  }

  /** The transfer has completed: one post hook, no failure, and the new server alone is open. */
  ghost predicate Transferred(s: Session) {
    && |s.links| == 2 && s.links[0].conn.closed && !s.links[1].conn.closed && s.links[1].conn.spawned
    && s.attempts == [Attempt(Some(1), 0, 1)] && s.fall == Fallbacks(false, [CompletedTransfer])
    && s.stage.source == Some(1) && s.stage.scene == Tracker.EMPTY
  }

  lemma TransferBegins(o: Options)
    ensures Transferring(o, Play(o, Opening(o)), 0)
  {
    var es := Opening(o);
    assert es[..|es| - 1] == [Login(true, []), TransferTo(GoodTransfer(o))];
    assert es[..|es| - 1][..1] == [Login(true, [])];
    assert [Login(true, [])][..0] == [];
    var s1 := Next(o, FRESH, Login(true, []));
    assert s1.links == [Link(New([], false), None)];
    assert Play(o, [Login(true, [])]) == s1;
    var s2 := Next(o, s1, TransferTo(GoodTransfer(o)));
    assert s2.links[1] == Link(New(TinyWire(o.conn, 0), true), Some(0));
  }

  /** A turn whose pass just loops: the connection moves on, and its callback runs if it fires. */
  lemma LoopingTurn(o: Options, s: Session, i: nat)
    requires !s.crashed && s.loop == Loop(Some(i), true, false) && i < |s.links| && s.stage.scene == Tracker.EMPTY
    requires Iterate(o.conn, s.links[i].conn, ALL_WELL).outcome.Again?
    ensures Next(o, s, LoopPass(GOOD_TURN)) == AfterPass(o, s, i, GOOD_TURN)
  {
  }

  lemma EarlyTurn(o: Options, s: Session, stage: nat)
    requires Tiny(o.conn) && stage < Stages(o.conn) - 1 && Transferring(o, s, stage)
    ensures Transferring(o, Next(o, s, LoopPass(GOOD_TURN)), stage + 1)
  {
    EarlyPass(o.conn, s.links[1].conn, stage, TinyWire(o.conn, stage + 1), true);
    LoopingTurn(o, s, 1);
    var c := Iterate(o.conn, s.links[1].conn, ALL_WELL).state;
    assert AfterPass(o, s, 1, GOOD_TURN) == Advance(s, 1, c);
  }

  lemma LastTurn(o: Options, s: Session)
    requires Tiny(o.conn) && Transferring(o, s, Stages(o.conn) - 1)
    ensures Transferred(Next(o, s, LoopPass(GOOD_TURN)))
  {
    var n := Stages(o.conn);
    assert TinyWire(o.conn, n - 1) == PLAY_STATUS + TinyWire(o.conn, n);
    LastPass(o.conn, s.links[1].conn, TinyWire(o.conn, n), true);
    LoopingTurn(o, s, 1);
    var c := Iterate(o.conn, s.links[1].conn, ALL_WELL).state;
    var t := Connected(o, Advance(s, 1, c), 1, GOOD_TURN.order, true);
    assert AfterPass(o, s, 1, GOOD_TURN) == t;
  }

  /** A transfer to that server runs to completion. */
  lemma TransferCanComplete(o: Options) returns (es: seq<SessionEvent>)
    requires Tiny(o.conn)
    ensures Transferred(Play(o, es))
  {
    es := Opening(o);
    TransferBegins(o);
    for stage := 0 to Stages(o.conn) - 1
      invariant Transferring(o, Play(o, es), stage)
    {
      EarlyTurn(o, Play(o, es), stage);
      SessionProofs.PlayLast(o, es, LoopPass(GOOD_TURN));
      es := es + [LoopPass(GOOD_TURN)];
    }
    LastTurn(o, Play(o, es));
    SessionProofs.PlayLast(o, es, LoopPass(GOOD_TURN));
    es := es + [LoopPass(GOOD_TURN)];
  }

  // ---- a completed login ------------------------------------------------------------------

  /** The login connection is the only one, is the loop's, and has completed `stage` stages. */
  ghost predicate LoggingIn(o: Options, s: Session, stage: nat) {
    && !s.crashed && s.loop == Loop(Some(0), true, false) && |s.links| == 1 && s.links[0].owner.None?
    && AtStage(o.conn, s.links[0].conn, TinyWire(o.conn, stage), stage, false)
    && s.stage == Stage(Tracker.EMPTY, Tracker.EMPTY, None, [])
  }

  lemma LoginBegins(o: Options)
    ensures LoggingIn(o, Play(o, [Login(true, TinyWire(o.conn, 0)), LoopTop]), 0)
  {
    var e := Login(true, TinyWire(o.conn, 0));
    assert [e, LoopTop][..1] == [e] && [e][..0] == [];
    var s1 := Next(o, FRESH, e);
    assert s1.links == [Link(New(TinyWire(o.conn, 0), false), None)];
    assert Play(o, [e]) == s1;
  }

  lemma LoginTurn(o: Options, s: Session, stage: nat)
    requires Tiny(o.conn) && stage < Stages(o.conn) && LoggingIn(o, s, stage)
    ensures LoggingIn(o, Next(o, s, LoopPass(GOOD_TURN)), stage + 1)
  {
    var n := Stages(o.conn);
    if stage < n - 1 {
      EarlyPass(o.conn, s.links[0].conn, stage, TinyWire(o.conn, stage + 1), false);
    } else {
      assert TinyWire(o.conn, n - 1) == PLAY_STATUS + TinyWire(o.conn, n);
      LastPass(o.conn, s.links[0].conn, TinyWire(o.conn, n), false);
    }
    LoopingTurn(o, s, 0);
    var c := Iterate(o.conn, s.links[0].conn, ALL_WELL).state;
    assert AfterPass(o, s, 0, GOOD_TURN) == Advance(s, 0, c);
  }

  lemma LoginSpawns(o: Options, s: Session)
    requires LoggingIn(o, s, Stages(o.conn))
    ensures var t := Next(o, s, SpawnLogin);
      |t.links| == 1 && t.links[0].conn.spawned && !t.links[0].conn.closed && t.stage.source == Some(0) && !t.crashed
  {
  }

  /** A login to that server runs to the player being spawned there. */
  lemma LoginCanComplete(o: Options) returns (es: seq<SessionEvent>)
    requires Tiny(o.conn)
    ensures var t := Play(o, es);
      |t.links| == 1 && t.links[0].conn.spawned && !t.links[0].conn.closed && t.stage.source == Some(0) && !t.crashed
  {
    es := [Login(true, TinyWire(o.conn, 0)), LoopTop];
    LoginBegins(o);
    for stage := 0 to Stages(o.conn)
      invariant LoggingIn(o, Play(o, es), stage)
    {
      LoginTurn(o, Play(o, es), stage);
      SessionProofs.PlayLast(o, es, LoopPass(GOOD_TURN));
      es := es + [LoopPass(GOOD_TURN)];
    }
    LoginSpawns(o, Play(o, es));
    SessionProofs.PlayLast(o, es, SpawnLogin);
    es := es + [SpawnLogin];
  }

  // ---- a superseded transfer --------------------------------------------------------------

  /** A second transfer in the middle of the first is not refused: the first fails and its connection is closed. */
  lemma SecondTransferIsNotRefused(o: Options)
    ensures var s := Play(o, Opening(o) + [TransferTo(GoodTransfer(o))]);
      && |s.links| == 3 && s.links[1].conn.closed && !s.links[2].conn.closed
      && s.attempts == [Attempt(Some(1), 1, 0), Attempt(Some(2), 0, 0)]
  {
    var es, c := Opening(o), GoodTransfer(o);
    var s := Play(o, es);
    TransferBegins(o);
    SessionProofs.SecondTransferSupersedes(o, es, 0, c);
    SessionProofs.PlayLast(o, es, TransferTo(c));
    assert TransferContext(s, c).session == Register(Adopt(CloseCurrent(s), c.input));
  }
}
