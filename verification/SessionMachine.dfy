/**
  A player session (session/session.go, session/handler.go) as a state machine over the server
  connections it has created. Dialing, closing, a transfer and one pass of `ReadPacket` are
  atomic; everything else interleaves freely. Processor hooks do not call back into the session.

  The current server connection is the last one created: only `dial` assigns it, and always to a
  new connection. Each connection is a full `ServerConn.State`, so what the session promises is
  proved from what its connections actually do.
 */
module SessionMachine {
  import opened Bytes
  import opened ServerConn
  import opened Tracker

  datatype Options = Options(conn: Config, local: nat)

  /** A server connection and the transfer attempt whose OnConnect function it carries, if any. */
  datatype Link = Link(conn: State, owner: Option<nat>)

  /** One `TransferContext` call that passed PreTransfer: its connection, if it got that far, and the hooks fired. */
  datatype Attempt = Attempt(link: Option<nat>, failures: nat, posts: nat)

  /** The goroutine that reads from the server: the connection it has picked, and whether it has ended. */
  datatype Loop = Loop(reading: Option<nat>, started: bool, ended: bool)

  datatype Mark = BeganFallback | CompletedTransfer

  datatype Fallbacks = Fallbacks(active: bool, marks: seq<Mark>)

  /** A tracked packet forwarded to the client, and the connection it came from. */
  datatype Delivery = Delivery(from: nat, pk: GamePacket)

  /** The tracker, what the client shows, the connection spawned last, and all deliveries. */
  datatype Stage = Stage(scene: Scene, view: Scene, source: Option<nat>, delivered: seq<Delivery>)

  /** History: an item the server loop got from a connection, and whether a processor hook cancelled it. */
  datatype Taken = Taken(from: nat, item: Item, cancelled: bool)

  datatype Session = Session(
    links: seq<Link>,            // every server connection ever created, in order
    loop: Loop,
    ctxDone: bool,               // s.ctx is cancelled
    once: bool,                  // CloseWithError has run
    crashed: bool,
    fall: Fallbacks,
    stage: Stage,
    attempts: seq<Attempt>,
    taken: seq<Taken>
  )

  datatype TransferChoice = TransferChoice(cancelled: bool, dialOk: bool, connectOk: bool, input: seq<Byte>)

  /** Everything outside the proxy that one turn of the server loop depends on. */
  datatype Turn = Turn(
    ch: Choice, spawnOk: bool, order: ClearOrder, cancels: bool, clientOk: bool, discoverOk: bool, next: TransferChoice)

  datatype SessionEvent =
    | Login(dialOk: bool, input: seq<Byte>)
    | SpawnLogin
    | TransferTo(choice: TransferChoice)
    | LoopTop
    | LoopPass(turn: Turn)
    | CloseServer(i: nat)
    | CloseSession
    | ClientGone

  datatype Did = Did(session: Session, ok: bool)

  const FRESH: Session :=
    Session([], Loop(None, false, false), false, false, false, Fallbacks(false, []), Stage(EMPTY, EMPTY, None, []), [], [])

  /** `ProcessTransferFailure` for an attempt. */
  function Fail(attempts: seq<Attempt>, t: Option<nat>): seq<Attempt> {
    if t.None? || t.value >= |attempts| then attempts else
    attempts[t.value := attempts[t.value].(failures := attempts[t.value].failures + 1)]
  }

  /** `ProcessPostTransfer` for an attempt. */
  function Post(attempts: seq<Attempt>, t: Option<nat>): seq<Attempt> {
    if t.None? || t.value >= |attempts| then attempts else
    attempts[t.value := attempts[t.value].(posts := attempts[t.value].posts + 1)]
  }

  /** `server.Conn.CloseWithError` on connection `i`; a transfer that had not connected fails now. */
  function CloseLink(s: Session, i: nat): Session
    requires i < |s.links|
  {
    var l := s.links[i];
    s.(links := s.links[i := l.(conn := Close(l.conn))],
       attempts := if CloseNotifies(l.conn) then Fail(s.attempts, l.owner) else s.attempts)
  }

  function CloseCurrent(s: Session): Session {
    if s.links == [] then s else CloseLink(s, |s.links| - 1)
  }

  function Adopt(s: Session, input: seq<Byte>): Session {
    s.(links := s.links + [Link(New(input, false), None)])
  }

  /** `dial`: the old connection is closed even when the transport then fails. */
  function Dial(s: Session, ok: bool, input: seq<Byte>): Did {
    if s.ctxDone then Did(s, false)
    else if !ok then Did(CloseCurrent(s), false)
    else Did(Adopt(CloseCurrent(s), input), true)
  }

  /** `OnConnect` on the newest connection, for a new attempt. */
  function Register(s: Session): Session {
    if s.links == [] then s else
    var i := |s.links| - 1;
    s.(links := s.links[i := Link(s.links[i].conn.(callback := true), Some(|s.attempts|))],
       attempts := s.attempts + [Attempt(Some(i), 0, 0)])
  }

  /** An attempt that never got a callback: its failure hook has fired. */
  function Refuse(s: Session): Session {
    s.(attempts := s.attempts + [Attempt(None, 1, 0)])
  }

  /** `TransferContext`; the callback is registered before the new connection is read. */
  function TransferContext(s: Session, c: TransferChoice): Did {
    if c.cancelled then Did(s, false) else
    var d := Dial(s, c.dialOk, c.input);
    if d.ok && c.connectOk then Did(Register(d.session), true) else Did(Refuse(d.session), false)
  }

  /** `Session.CloseWithError` */
  function Shut(s: Session): Session {
    if s.once then s else CloseCurrent(s).(once := true, ctxDone := true)
  }

  function Begin(s: Session): Session {
    s.(fall := Fallbacks(true, s.fall.marks + [BeganFallback]))
  }

  /** `fallback`: at most one is in progress between two completed transfers. */
  function Fallback(s: Session, discoverOk: bool, c: TransferChoice): Did {
    if s.ctxDone || s.fall.active then Did(s, false)
    else if !discoverOk then Did(Begin(s), false)
    else TransferContext(Begin(s), c)
  }

  /** The OnConnect function of a transfer: clear the client, spawn, and report. */
  function Connected(o: Options, s: Session, i: nat, order: ClearOrder, spawnOk: bool): Session
    requires i < |s.links|
  {
    s.(stage := Stage(EMPTY, ShowAll(o.local, s.stage.view, ClearPackets(o.local, order)), Some(i), s.stage.delivered),
       fall := if spawnOk then Fallbacks(false, s.fall.marks + [CompletedTransfer]) else s.fall,
       attempts := if spawnOk then Post(s.attempts, s.links[i].owner) else Fail(s.attempts, s.links[i].owner))
  }

  function Games(pks: seq<Packet>): seq<GamePacket> {
    if pks == [] then []
    else (if pks[0].Game? then [pks[0].game] else []) + Games(pks[1..])
  }

  function Deliveries(from: nat, gs: seq<GamePacket>): (ds: seq<Delivery>)
    ensures |ds| == |gs| && forall k :: 0 <= k < |gs| ==> ds[k] == Delivery(from, gs[k])
  {
    seq(|gs|, k requires 0 <= k < |gs| => Delivery(from, gs[k]))
  }

  /** The session closes and the server loop ends. */
  function EndLoop(s: Session): Session {
    Shut(s).(loop := s.loop.(reading := None, ended := true))
  }

  function Idle(s: Session): Session {
    s.(loop := s.loop.(reading := None))
  }

  function Take(s: Session, i: nat, item: Item, cancelled: bool): Session {
    Idle(s).(taken := s.taken + [Taken(i, item, cancelled)])
  }

  /** A decoded packet is tracked, then written to the client. */
  function Forward(o: Options, s: Session, i: nat, pk: Packet, clientOk: bool): Session {
    var gs := Games(Converted(o.conn, pk));
    var st := s.stage.(scene := TrackAll(s.stage.scene, gs), delivered := s.stage.delivered + Deliveries(i, gs));
    if clientOk then s.(stage := st.(view := ShowAll(o.local, st.view, gs))) else EndLoop(s).(stage := st)
  }

  /** What the server loop does with a packet it got from connection `i`. */
  function Process(o: Options, s: Session, i: nat, item: Item, turn: Turn): Session {
    if item.Decoded? && item.pk.Transfer? then TransferContext(s, turn.next).session
    else if item.Decoded? && (item.pk.Latency? || item.pk.UpdateCache?) then s
    else if turn.cancels then s
    else if item.Decoded? && !item.pk.Flush? then Forward(o, s, i, item.pk, turn.clientOk)
    else if turn.clientOk then s
    else EndLoop(s)
  }

  /** A read failed: a superseded connection is forgotten, the current one triggers a fallback. */
  function ReadFailed(s: Session, i: nat, turn: Turn): Session
    requires i < |s.links|
  {
    if i != |s.links| - 1 then s else
    var d := Fallback(CloseLink(s, i), turn.discoverOk, turn.next);
    if d.ok then d.session else EndLoop(d.session)
  }

  /** The handshake of connection `i` completes in this pass and runs its OnConnect function. */
  predicate Fires(before: State, after: State) {
    before.callback && !before.connected && after.connected
  }

  function Advance(s: Session, i: nat, c: State): Session
    requires i < |s.links|
  {
    s.(links := s.links[i := s.links[i].(conn := c)])
  }

  /** Connection `i` after one pass, with the effects of its callback. */
  function AfterPass(o: Options, s: Session, i: nat, turn: Turn): Session
    requires i < |s.links|
  {
    var c := Iterate(o.conn, s.links[i].conn, turn.ch).state;
    if Fires(s.links[i].conn, c) then Connected(o, Advance(s, i, c), i, turn.order, turn.spawnOk) else Advance(s, i, c)
  }

  /** What follows from the outcome of the pass. */
  function React(o: Options, s: Session, i: nat, out: Outcome, turn: Turn): Session
    requires i < |s.links|
  {
    match out
    case Again => s
    case Crash => s.(crashed := true)
    case Error => ReadFailed(Idle(s), i, turn)
    case Returned(item) => Process(o, Take(s, i, item, turn.cancels), i, item, turn)
  }

  function TakeTurn(o: Options, s: Session, i: nat, turn: Turn): Session
    requires i < |s.links|
  {
    if !Orders(turn.order, s.stage.scene) then s
    else React(o, AfterPass(o, s, i, turn), i, Iterate(o.conn, s.links[i].conn, turn.ch).outcome, turn)
  }

  function LoginDial(s: Session, ok: bool, input: seq<Byte>): Session {
    var d := Dial(s, ok, input);
    d.session.(loop := Loop(None, true, !d.ok))
  }

  /** The login connection has connected and is still open: LoginContext spawns the player. */
  predicate CanSpawnLogin(s: Session) {
    && s.links != [] && s.links[0].owner.None?
    && s.links[0].conn.connected && !s.links[0].conn.spawned && !s.links[0].conn.closed
  }

  function SpawnLink(s: Session): Session
    requires s.links != []
  {
    Advance(s, 0, DoSpawn(s.links[0].conn).state).(stage := s.stage.(source := Some(0)))
  }

  function Next(o: Options, s: Session, e: SessionEvent): Session {
    if s.crashed then s else
    match e
    case Login(ok, input) => if s.loop.started then s else LoginDial(s, ok, input)
    case SpawnLogin => if CanSpawnLogin(s) then SpawnLink(s) else s
    case TransferTo(c) => if s.loop.started then TransferContext(s, c).session else s
    case LoopTop =>
      if s.links == [] || s.loop.ended || s.loop.reading.Some? then s
      else if s.ctxDone then EndLoop(s)
      else s.(loop := s.loop.(reading := Some(|s.links| - 1)))
    case LoopPass(turn) =>
      if s.loop.ended || s.loop.reading.None? || s.loop.reading.value >= |s.links| then s
      else TakeTurn(o, s, s.loop.reading.value, turn)
    case CloseServer(i) => if i < |s.links| then CloseLink(s, i) else s
    case CloseSession => Shut(s)
    case ClientGone => s.(ctxDone := true)
  }

  function Play(o: Options, es: seq<SessionEvent>): Session {
    if es == [] then FRESH else Next(o, Play(o, es[..|es| - 1]), es[|es| - 1])
  }
}
