/**
  The server connection (server/conn.go) as a state machine.

  Before it is spawned, the connection reads packets itself: it handles the ones its handshake
  expects and defers the rest. Once spawned it hands out the deferred packets and then whatever
  it reads. One call of `Iterate` is one pass through `ReadPacket` up to its tail call.

  `State.log` is history; nothing in the machine looks at it.
 */
module ServerConn {
  import opened Bytes
  import opened Framing
  import Batch
  import Tracker

  datatype PacketId =
    | IdConnectionResponse | IdStartGame | IdItemRegistry | IdChunkRadiusUpdated | IdPlayStatus
    | IdFlush | IdLatency | IdTransfer | IdUpdateCache | IdGame

  datatype ItemEntry = ItemEntry(name: string, runtimeID: int)

  /** The part of StartGame that is copied into the game data unchanged. */
  datatype World = World(name: string, dimension: int, x: real, z: real)

  datatype Packet =
    | ConnectionResponse(runtimeID: nat, uniqueID: int)
    | StartGame(world: World)
    | ItemRegistry(items: seq<ItemEntry>)
    | ChunkRadiusUpdated(radius: int)
    | PlayStatus(status: int)
    | Flush
    | Latency(latency: int)
    | Transfer(addr: string)
    | UpdateCache(cache: seq<Byte>)
    | Game(game: Tracker.GamePacket)

  datatype Item = Raw(bytes: seq<Byte>) | Decoded(pk: Packet)

  datatype GameData = GameData(world: World, uniqueID: int, runtimeID: nat, items: seq<ItemEntry>, chunkRadius: int)

  const NO_GAME_DATA: GameData := GameData(World("", 0, 0.0, 0.0), 0, 0, [], 0)

  /** `decode` depends on the shield ID known so far; `convert` is `Protocol.ConvertToLatest`. */
  datatype Config = Config(
    syncProtocol: bool,
    protocolID: int,
    codec: Batch.Codec,
    decode: (int, seq<Byte>) -> Option<Packet>,
    convert: Packet -> seq<Packet>
  )

  /** The handshake's own registers. */
  datatype Registers = Registers(
    expected: seq<PacketId>, runtimeID: nat, uniqueID: int, gameData: GameData, shieldID: int)

  datatype Panic = NoPanic
    | DoubleClose            // a one-shot channel was closed twice
    | EmptyFrame             // the flag byte of an empty frame was indexed

  datatype History = History(
    arrived: seq<Item>,      // items read before spawn
    seen: seq<Item>,         // the same after conversion, as far as they were examined
    later: seq<Item>,        // items read after spawn
    returned: seq<Item>,     // results of ReadPacket
    handled: seq<Packet>,    // handshake packets handled
    requests: nat            // RequestChunkRadius packets attempted
  )

  datatype State = State(
    input: seq<Byte>,
    hs: Registers,
    deferred: seq<Item>,
    callback: bool,          // an OnConnect function is registered
    connected: bool,
    spawned: bool,
    closed: bool,
    panic: Panic,
    log: History
  )

  datatype Handled = Handled(state: State, ok: bool)

  function Id(pk: Packet): PacketId {
    match pk
    case ConnectionResponse(_, _) => IdConnectionResponse
    case StartGame(_) => IdStartGame
    case ItemRegistry(_) => IdItemRegistry
    case ChunkRadiusUpdated(_) => IdChunkRadiusUpdated
    case PlayStatus(_) => IdPlayStatus
    case Flush => IdFlush
    case Latency(_) => IdLatency
    case Transfer(_) => IdTransfer
    case UpdateCache(_) => IdUpdateCache
    case Game(_) => IdGame
  }

  /** `NewConn`, with the callback of a transfer registered before anything is read. */
  function New(input: seq<Byte>, callback: bool): State {
    State(input, Registers([IdConnectionResponse], 0, 0, NO_GAME_DATA, 0), [], callback,
          false, false, false, NoPanic, History([], [], [], [], [], 0))
  }

  predicate Crashed(s: State) {
    s.panic != NoPanic
  }

  // ---- reading --------------------------------------------------------------------------

  datatype ReadOutcome = ReadItem(item: Item, rest: seq<Byte>) | ReadFail(rest: seq<Byte>) | ReadPanic(rest: seq<Byte>)

  /** `Conn.read`; the transport may fail at any time (`readOk` false), after which it has nothing left. */
  function Read(cfg: Config, input: seq<Byte>, shieldID: int, readOk: bool): (r: ReadOutcome)
    ensures r.ReadItem? ==> |r.rest| + 5 <= |input|
  {
    if !readOk then ReadFail([]) else
    match ReadFrame(input)
    case Short => ReadFail([])
    case Got(p, rest) =>
      match Batch.Unpack(cfg.codec, p)
      case Panic => ReadPanic(rest)
      case Undecodable => ReadFail(rest)
      case Body(flags, b) =>
        if !Batch.HasFlag(flags, Batch.FLAG_DECODE) then ReadItem(Raw(b), rest) else
        match cfg.decode(shieldID, b)
        case None => ReadFail(rest)
        case Some(pk) => ReadItem(Decoded(pk), rest)
  }

  // ---- the five handlers ----------------------------------------------------------------

  function Defer(s: State, item: Item): State {
    s.(deferred := s.deferred + [item])
  }

  function OnConnectionResponse(s: State, pk: Packet): State
    requires pk.ConnectionResponse?
  {
    s.(hs := s.hs.(expected := [IdStartGame], runtimeID := pk.runtimeID, uniqueID := pk.uniqueID))
  }

  /** Counts one attempt to send RequestChunkRadius. */
  function Request(s: State): State {
    s.(log := s.log.(requests := s.log.requests + 1))
  }

  /** A failed chunk radius request leaves the game data unset. */
  function OnStartGame(cfg: Config, s: State, pk: Packet, writeOk: bool): Handled
    requires pk.StartGame?
  {
    var data := GameData(pk.world, s.hs.uniqueID, s.hs.runtimeID, [], 0);
    if cfg.protocolID >= 776 then Handled(s.(hs := s.hs.(expected := [IdItemRegistry], gameData := data)), true)
    else
      var hs := s.hs.(expected := [IdChunkRadiusUpdated], gameData := if writeOk then data else s.hs.gameData);
      Handled(Request(s).(hs := hs), writeOk)
  }

  predicate IsShield(item: ItemEntry) {
    item.name == "minecraft:shield"
  }

  /** The last shield entry wins. */
  function ShieldAfter(items: seq<ItemEntry>, shieldID: int): int {
    if items == [] then shieldID
    else
      var last := items[|items| - 1];
      if IsShield(last) then last.runtimeID else ShieldAfter(items[..|items| - 1], shieldID)
  }

  function OnItemRegistry(s: State, pk: Packet, writeOk: bool): Handled
    requires pk.ItemRegistry?
  {
    var hs := s.hs.(expected := [IdChunkRadiusUpdated], gameData := s.hs.gameData.(items := pk.items),
                    shieldID := ShieldAfter(pk.items, s.hs.shieldID));
    Handled(Request(s).(hs := hs), writeOk)
  }

  function OnChunkRadiusUpdated(s: State, pk: Packet): State
    requires pk.ChunkRadiusUpdated?
  {
    Defer(s, Decoded(pk)).(
      hs := s.hs.(expected := [IdPlayStatus], gameData := s.hs.gameData.(chunkRadius := pk.radius)))
  }

  /** `DoSpawn`: refused once closed. */
  function DoSpawn(s: State): Handled {
    if s.closed then Handled(s, false)
    else if s.spawned then Handled(s.(panic := DoubleClose), false)
    else Handled(s.(spawned := true), true)
  }

  /** Closing `connected` a second time panics; a registered callback spawns the player at once. */
  function OnPlayStatus(s: State, pk: Packet): Handled
    requires pk.PlayStatus?
  {
    var d := Defer(s, Decoded(pk));
    if s.connected then Handled(d.(panic := DoubleClose), false)
    else if s.callback then
      var sp := DoSpawn(d.(connected := true)).state;
      Handled(sp, !Crashed(sp))
    else Handled(d.(connected := true), true)
  }

  /** `CloseWithError`. */
  function Close(s: State): State {
    s.(closed := true)
  }

  /** Whether closing `s` calls the registered callback with an error. */
  predicate CloseNotifies(s: State) {
    !s.closed && s.callback && !s.connected
  }

  // ---- handlePacket and ReadPacket ------------------------------------------------------

  function HandleExpected(cfg: Config, s: State, pk: Packet, writeOk: bool): Handled {
    match pk
    case ConnectionResponse(_, _) => Handled(OnConnectionResponse(s, pk), true)
    case StartGame(_) => OnStartGame(cfg, s, pk, writeOk)
    case ItemRegistry(_) => OnItemRegistry(s, pk, writeOk)
    case ChunkRadiusUpdated(_) => Handled(OnChunkRadiusUpdated(s, pk), true)
    case PlayStatus(_) => OnPlayStatus(s, pk)
    case _ => Handled(Defer(s, Decoded(pk)), true)
  }

  /** History: the packet was examined, and handled unless it is a PlayStatus that panics. */
  function Examined(s: State, pk: Packet): State {
    s.(log := s.log.(
         seen := s.log.seen + [Decoded(pk)],
         handled := if Id(pk) !in s.hs.expected || (pk.PlayStatus? && s.connected) then s.log.handled
                    else s.log.handled + [pk]))
  }

  /** One round of the loop in `handlePacket`; not `ok` means that the loop ends early. */
  function HandleOne(cfg: Config, s: State, pk: Packet, writeOk: bool): Handled {
    if Id(pk) !in s.hs.expected then Handled(Defer(Examined(s, pk), Decoded(pk)), true)
    else HandleExpected(cfg, Examined(s, pk), pk, writeOk)
  }

  function HandleAll(cfg: Config, s: State, pks: seq<Packet>, writeOk: bool): Handled
    decreases |pks|
  {
    if pks == [] then Handled(s, true) else
    var r := HandleOne(cfg, s, pks[0], writeOk);
    if r.ok then HandleAll(cfg, r.state, pks[1..], writeOk) else r
  }

  function Converted(cfg: Config, pk: Packet): seq<Packet> {
    if cfg.syncProtocol then cfg.convert(pk) else [pk]
  }

  /** `takeClosed`: which ready case `select` picks when the connection is both closed and spawned. */
  datatype Choice = Choice(takeClosed: bool, readOk: bool, writeOk: bool)

  datatype Outcome = Again | Returned(item: Item) | Error | Crash

  datatype Pass = Pass(state: State, outcome: Outcome)

  function IterateSpawned(cfg: Config, s: State, ch: Choice): Pass {
    if s.deferred != [] then
      Pass(s.(deferred := s.deferred[1..], log := s.log.(returned := s.log.returned + [s.deferred[0]])),
           Returned(s.deferred[0]))
    else
      match Read(cfg, s.input, s.hs.shieldID, ch.readOk)
      case ReadPanic(rest) => Pass(s.(input := rest, panic := EmptyFrame), Crash)
      case ReadFail(rest) => Pass(s.(input := rest), Error)
      case ReadItem(item, rest) =>
        Pass(s.(input := rest, log := s.log.(later := s.log.later + [item], returned := s.log.returned + [item])),
             Returned(item))
  }

  /** History: an item was read before spawn. */
  function Arrived(s: State, item: Item, rest: seq<Byte>): State {
    s.(input := rest, log := s.log.(arrived := s.log.arrived + [item]))
  }

  /** A payload that needs no decoding is deferred as it is. */
  function HandleRaw(s: State, item: Item): State {
    Defer(s, item).(log := s.log.(seen := s.log.seen + [item]))
  }

  function IterateHandshake(cfg: Config, s: State, ch: Choice): Pass {
    match Read(cfg, s.input, s.hs.shieldID, ch.readOk)
    case ReadPanic(rest) => Pass(s.(input := rest, panic := EmptyFrame), Crash)
    case ReadFail(rest) => Pass(s.(input := rest), Error)
    case ReadItem(item, rest) =>
      var t := Arrived(s, item, rest);
      match item
      case Raw(_) => Pass(HandleRaw(t, item), Again)
      case Decoded(pk) =>
        var r := HandleAll(cfg, t, Converted(cfg, pk), ch.writeOk);
        Pass(r.state, if Crashed(r.state) then Crash else if r.ok then Again else Error)
  }

  function Iterate(cfg: Config, s: State, ch: Choice): Pass {
    if Crashed(s) then Pass(s, Crash)
    else if s.closed && (!s.spawned || ch.takeClosed) then Pass(s, Error)
    else if s.spawned then IterateSpawned(cfg, s, ch)
    else IterateHandshake(cfg, s, ch)
  }

  // ---- runs -----------------------------------------------------------------------------

  /**
    What can happen to one connection: its reader makes a pass (and closes the connection if that
    fails, as the server loop does), the login sequence spawns it after waiting for `connected`,
    or somebody closes it.
   */
  datatype Event = MakePass(ch: Choice) | LoginSpawn | CloseIt

  function Step(cfg: Config, s: State, e: Event): State {
    if Crashed(s) then s else
    match e
    case MakePass(ch) =>
      var p := Iterate(cfg, s, ch);
      if p.outcome.Error? then Close(p.state) else p.state
    case LoginSpawn => if s.connected && !s.callback && !s.spawned then DoSpawn(s).state else s
    case CloseIt => Close(s)
  }

  function Run(cfg: Config, s: State, es: seq<Event>): State
    decreases |es|
  {
    if es == [] then s else Run(cfg, Step(cfg, s, es[0]), es[1..])
  }

  /** Other goroutines may act before each pass of a `ReadPacket` call. */
  function Interfere(cfg: Config, s: State, e: Option<Event>): State {
    if e.Some? && !e.value.MakePass? then Step(cfg, s, e.value) else s
  }

  /** What the handlers leave alone. */
  ghost predicate Untouched(s: State, t: State) {
    && t.input == s.input && t.closed == s.closed && t.callback == s.callback
    && t.log.arrived == s.log.arrived && t.log.later == s.log.later && t.log.returned == s.log.returned
    && (t.panic == s.panic || t.panic == DoubleClose)
    && (s.spawned ==> t.spawned) && (s.connected ==> t.connected)
    && (!s.callback ==> t.spawned == s.spawned)
  }

  lemma PlayStatusFrame(s: State, pk: Packet)
    requires pk.PlayStatus?
    ensures Untouched(s, OnPlayStatus(s, pk).state)
  {
    if !s.connected {
      if s.callback { if s.closed {} else if s.spawned {} }
    }
  }

  lemma HandleExpectedFrame(cfg: Config, s: State, pk: Packet, writeOk: bool)
    ensures Untouched(s, HandleExpected(cfg, s, pk, writeOk).state)
  {
    match pk
    case StartGame(_) => if cfg.protocolID >= 776 {}
    case PlayStatus(_) => PlayStatusFrame(s, pk);
    case _ =>
  }

  lemma HandleOneFrame(cfg: Config, s: State, pk: Packet, writeOk: bool)
    ensures Untouched(s, HandleOne(cfg, s, pk, writeOk).state)
  {
    var t := Examined(s, pk);
    assert Untouched(s, t);
    if Id(pk) in s.hs.expected {
      HandleExpectedFrame(cfg, t, pk, writeOk);
    }
  }

  lemma {:induction false} HandleAllFrame(cfg: Config, s: State, pks: seq<Packet>, writeOk: bool)
    ensures Untouched(s, HandleAll(cfg, s, pks, writeOk).state)
    decreases |pks|
  {
    if pks != [] {
      var r := HandleOne(cfg, s, pks[0], writeOk);
      HandleOneFrame(cfg, s, pks[0], writeOk);
      if r.ok {
        HandleAllFrame(cfg, r.state, pks[1..], writeOk);
      }
    }
  }

  /** A pass that loops has consumed a frame of at least five bytes; a packet is returned only when spawned. */
  lemma PassConsumes(cfg: Config, s: State, ch: Choice)
    ensures var p := Iterate(cfg, s, ch);
            && (p.outcome.Again? ==> |p.state.input| + 5 <= |s.input|)
            && (p.outcome.Returned? ==> s.spawned && p.state.spawned)
  {
    var r := Read(cfg, s.input, s.hs.shieldID, ch.readOk);
    if r.ReadItem? && r.item.Decoded? {
      HandleAllFrame(cfg, Arrived(s, r.item, r.rest), Converted(cfg, r.item.pk), ch.writeOk);
    }
  }

  /**
    A whole `ReadPacket` call. That this function is accepted at all is the termination
    argument: every pass that loops has consumed input.
   */
  function ReadPacket(cfg: Config, s: State, env: nat -> Option<Event>, choice: nat -> Choice, k: nat): (r: Pass)
    ensures !r.outcome.Again?
    ensures r.outcome.Returned? ==> r.state.spawned
    decreases |s.input|
  {
    var t := Interfere(cfg, s, env(k));
    var p := Iterate(cfg, t, choice(k));
    PassConsumes(cfg, t, choice(k));
    if p.outcome.Again? then ReadPacket(cfg, p.state, env, choice, k + 1) else p
  }

  /** A payload sent with `Write` is what `read` returns on the other side, undecoded, on either side of the threshold. */
  lemma WriteThenRead(cfg: Config, p: Payload, rest: seq<Byte>, shieldID: int)
    requires cfg.codec.Lossless() && |Batch.Seal(cfg.codec, Batch.Single(p))| < WORD
    ensures Read(cfg, Frame(Batch.Seal(cfg.codec, Batch.Single(p))) + rest, shieldID, true) == ReadItem(Raw(p), rest)
  {
    var f := Batch.Seal(cfg.codec, Batch.Single(p));
    FrameRoundTripIff(f, rest);
    Batch.UnpackUndoesPack(cfg.codec, 0, p);
    Batch.FlagTable();
  }

  /** `read` panics exactly on a stream whose next frame is empty. */
  lemma ReadPanicsIff(cfg: Config, input: seq<Byte>, shieldID: int)
    ensures Read(cfg, input, shieldID, true).ReadPanic? <==> |input| >= 4 && input[..4] == [0, 0, 0, 0]
  {
    if |input| >= 4 {
      assert FromBe32(input[..4]) == 0 <==> input[..4] == [0, 0, 0, 0];
    }
  }

  /** The shield ID is that of the last shield in the registry. */
  lemma {:induction false} LastShieldWins(items: seq<ItemEntry>, before: int, k: nat)
    requires k < |items| && items[k].name == "minecraft:shield"
    requires forall j :: k < j < |items| ==> items[j].name != "minecraft:shield"
    ensures ShieldAfter(items, before) == items[k].runtimeID
    decreases |items|
  {
    if k < |items| - 1 {
      LastShieldWins(items[..|items| - 1], before, k);
    }
  }

  /** Without a shield in the registry it stays what it was. */
  lemma {:induction false} NoShieldKeepsId(items: seq<ItemEntry>, before: int)
    requires forall j :: 0 <= j < |items| ==> items[j].name != "minecraft:shield"
    ensures ShieldAfter(items, before) == before
  {
    if items != [] {
      NoShieldKeepsId(items[..|items| - 1], before);
    }
  }
}
