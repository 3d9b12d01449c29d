/**
  `server.Conn` in the source's own form: an object whose methods update its fields, close its
  one-shot signals and consume its reader. Every method is tied to the state machine of module
  `ServerConn`, whose runs are the subject of module `Handshake`.
 */
module Conn {
  import opened Bytes
  import opened Framing
  import opened ServerConn
  import Batch

  class Conn {
    const cfg: Config
    const reader: Reader

    var runtimeID: nat
    var uniqueID: int
    var gameData: GameData
    var shieldID: int
    var deferredPackets: seq<Item>
    var expectedIds: seq<PacketId>
    var hasCallback: bool
    var connected: bool
    var spawned: bool
    var closed: bool
    var panic: Panic
    ghost var log: History

    ghost function View(): State
      reads this, reader.source
    {
      State(reader.source.input, Registers(expectedIds, runtimeID, uniqueID, gameData, shieldID),
            deferredPackets, hasCallback, connected, spawned, closed, panic, log)
    }

    constructor (cfg: Config, reader: Reader)
      ensures View() == New(reader.source.input, false)
      ensures this.cfg == cfg && this.reader == reader
    {
      this.cfg := cfg;
      this.reader := reader;
      runtimeID, uniqueID, gameData, shieldID := 0, 0, NO_GAME_DATA, 0;
      deferredPackets := [];
      expectedIds := [IdConnectionResponse];
      hasCallback, connected, spawned, closed := false, false, false, false;
      panic := NoPanic;
      log := History([], [], [], [], [], 0);
    }

    method OnConnect()
      modifies this
      ensures View() == old(View()).(callback := true)
    {
      hasCallback := true;
    }

    method DeferPacket(item: Item)
      modifies this`deferredPackets
      ensures View() == Defer(old(View()), item)
    {
      deferredPackets := deferredPackets + [item];
    }

    method Expect(ids: seq<PacketId>)
      modifies this`expectedIds
      ensures expectedIds == ids
    {
      expectedIds := ids;
    }

    /** The outcome of writing a packet to the server is up to the transport. */
    method RequestChunkRadius(writeOk: bool) returns (ok: bool)
      modifies this`log
      ensures ok == writeOk && View() == Request(old(View()))
    {
      log := log.(requests := log.requests + 1);
      ok := writeOk;
    }

    method HandleConnectionResponse(pk: Packet)
      requires pk.ConnectionResponse?
      modifies this
      ensures View() == OnConnectionResponse(old(View()), pk)
    {
      Expect([IdStartGame]);
      runtimeID := pk.runtimeID;
      uniqueID := pk.uniqueID;
    }

    method HandleStartGame(pk: Packet, writeOk: bool) returns (ok: bool)
      requires pk.StartGame?
      modifies this
      ensures Handled(View(), ok) == OnStartGame(cfg, old(View()), pk, writeOk)
    {
      if cfg.protocolID >= 776 {
        Expect([IdItemRegistry]);
      } else {
        Expect([IdChunkRadiusUpdated]);
        ok := RequestChunkRadius(writeOk);
        if !ok {
          return;
        }
      }
      gameData := GameData(pk.world, uniqueID, runtimeID, [], 0);
      ok := true;
    }

    method HandleItemRegistry(pk: Packet, writeOk: bool) returns (ok: bool)
      requires pk.ItemRegistry?
      modifies this
      ensures Handled(View(), ok) == OnItemRegistry(old(View()), pk, writeOk)
    {
      Expect([IdChunkRadiusUpdated]);
      gameData := gameData.(items := pk.items);
      ghost var before := shieldID;
      ghost var mid := View();
      for i := 0 to |pk.items|
        invariant shieldID == ShieldAfter(pk.items[..i], before)
        invariant View() == mid.(hs := mid.hs.(shieldID := shieldID))
      {
        if IsShield(pk.items[i]) {
          shieldID := pk.items[i].runtimeID;
        }
        assert pk.items[..i + 1][..i] == pk.items[..i];
      }
      assert pk.items[..|pk.items|] == pk.items;
      ok := RequestChunkRadius(writeOk);
    }

    method HandleChunkRadiusUpdated(pk: Packet)
      requires pk.ChunkRadiusUpdated?
      modifies this
      ensures View() == OnChunkRadiusUpdated(old(View()), pk)
    {
      DeferPacket(Decoded(pk));
      Expect([IdPlayStatus]);
      gameData := gameData.(chunkRadius := pk.radius);
    }

    method SpawnPlayer() returns (ok: bool)
      modifies this
      ensures Handled(View(), ok) == DoSpawn(old(View()))
    {
      if closed {
        return false;
      }
      if spawned {
        panic := DoubleClose;
        return false;
      }
      spawned := true;
      ok := true;
    }

    method HandlePlayStatus(pk: Packet) returns (ok: bool)
      requires pk.PlayStatus?
      modifies this
      ensures Handled(View(), ok) == OnPlayStatus(old(View()), pk)
    {
      DeferPacket(Decoded(pk));
      if connected {
        panic := DoubleClose;
        return false;
      }
      connected := true;
      ok := true;
      if hasCallback {
        var _ := SpawnPlayer();
        ok := panic == NoPanic;
      }
    }

    /** At most one call runs the callback with an error, and only if the handshake had not completed. */
    method CloseWithError() returns (notify: bool)
      modifies this`closed
      ensures View() == Close(old(View()))
      ensures notify <==> CloseNotifies(old(View()))
    {
      notify := !closed && hasCallback && !connected;
      closed := true;
    }

    method HandleOnePacket(pk: Packet, writeOk: bool) returns (ok: bool)
      modifies this
      ensures Handled(View(), ok) == HandleOne(cfg, old(View()), pk, writeOk)
    {
      log := Examined(View(), pk).log;
      if Id(pk) !in expectedIds {
        DeferPacket(Decoded(pk));
        return true;
      }
      match pk
      case ConnectionResponse(_, _) =>
        HandleConnectionResponse(pk);
        ok := true;
      case StartGame(_) =>
        ok := HandleStartGame(pk, writeOk);
      case ItemRegistry(_) =>
        ok := HandleItemRegistry(pk, writeOk);
      case ChunkRadiusUpdated(_) =>
        HandleChunkRadiusUpdated(pk);
        ok := true;
      case PlayStatus(_) =>
        ok := HandlePlayStatus(pk);
      case _ =>
        DeferPacket(Decoded(pk));
        ok := true;
    }

    /** The loop of `handlePacket` over the converted packets. */
    method HandlePacket(p: Packet, writeOk: bool) returns (ok: bool)
      modifies this
      ensures Handled(View(), ok) == HandleAll(cfg, old(View()), Converted(cfg, p), writeOk)
    {
      var pks := Converted(cfg, p);
      for i := 0 to |pks|
        invariant HandleAll(cfg, View(), pks[i..], writeOk) == HandleAll(cfg, old(View()), pks, writeOk)
      {
        ok := HandleOnePacket(pks[i], writeOk);
        assert pks[i..][1..] == pks[i + 1..];
        if !ok {
          return;
        }
      }
      ok := true;
    }

    /** `Conn.read` on the framed stream. */
    method ReadItem(readOk: bool) returns (r: ReadOutcome)
      modifies reader.source
      ensures r == Read(cfg, old(reader.source.input), shieldID, readOk)
      ensures reader.source.input == r.rest
    {
      if !readOk {
        reader.source.input := [];
        return ReadFail([]);
      }
      var payload := reader.ReadPacket();
      if payload.None? {
        return ReadFail([]);
      }
      var rest := reader.source.input;
      match Batch.Unpack(cfg.codec, payload.value)
      case Panic => return ReadPanic(rest);
      case Undecodable => return ReadFail(rest);
      case Body(flags, b) =>
        if !Batch.HasFlag(flags, Batch.FLAG_DECODE) {
          return ServerConn.ReadItem(Raw(b), rest);
        }
        var pk := cfg.decode(shieldID, b);
        if pk.None? {
          return ReadFail(rest);
        }
        return ServerConn.ReadItem(Decoded(pk.value), rest);
    }

    /** A pass once spawned: deferred packets first, then the stream. */
    method PassSpawned(ch: Choice) returns (out: Outcome)
      modifies this, reader.source
      ensures Pass(View(), out) == IterateSpawned(cfg, old(View()), ch)
    {
      if deferredPackets != [] {
        var item := deferredPackets[0];
        deferredPackets := deferredPackets[1..];
        log := log.(returned := log.returned + [item]);
        return Returned(item);
      }
      var r := ReadItem(ch.readOk);
      match r
      case ReadPanic(_) =>
        panic := EmptyFrame;
        out := Crash;
      case ReadFail(_) =>
        out := Error;
      case ReadItem(item, _) =>
        log := log.(later := log.later + [item], returned := log.returned + [item]);
        out := Returned(item);
    }

    /** A pass before spawn: handle or defer what arrives. */
    method PassHandshake(ch: Choice) returns (out: Outcome)
      modifies this, reader.source
      ensures Pass(View(), out) == IterateHandshake(cfg, old(View()), ch)
    {
      var r := ReadItem(ch.readOk);
      match r
      case ReadPanic(_) =>
        panic := EmptyFrame;
        out := Crash;
      case ReadFail(_) =>
        out := Error;
      case ReadItem(item, _) =>
        log := log.(arrived := log.arrived + [item]);
        match item
        case Raw(_) =>
          log := log.(seen := log.seen + [item]);
          DeferPacket(item);
          out := Again;
        case Decoded(pk) =>
          var ok := HandlePacket(pk, ch.writeOk);
          out := if panic != NoPanic then Crash else if ok then Again else Error;
    }

    /** One pass through `ReadPacket` up to its tail call. */
    method MakeOnePass(ch: Choice) returns (out: Outcome)
      modifies this, reader.source
      ensures Pass(View(), out) == Iterate(cfg, old(View()), ch)
    {
      if panic != NoPanic {
        return Crash;
      }
      if closed && (!spawned || ch.takeClosed) {
        return Error;
      }
      if spawned {
        out := PassSpawned(ch);
      } else {
        out := PassHandshake(ch);
      }
    }

    /** What another goroutine does to the connection between two passes. */
    method Interference(e: Option<Event>)
      modifies this
      ensures View() == Interfere(cfg, old(View()), e)
    {
      if e.None? || panic != NoPanic {
        return;
      }
      match e.value
      case MakePass(_) =>
      case LoginSpawn =>
        if connected && !hasCallback && !spawned {
          var _ := SpawnPlayer();
        }
      case CloseIt =>
        var _ := CloseWithError();
    }

    /**
      The recursive `ReadPacket`. It stops on every finite stream, because each pass that loops
      shortens the input, and hands out a packet only when the connection is spawned.
     */
    method ReadPacket(env: nat -> Option<Event>, choice: nat -> Choice, k: nat) returns (out: Outcome)
      modifies this, reader.source
      ensures Pass(View(), out) == ServerConn.ReadPacket(cfg, old(View()), env, choice, k)
      ensures !out.Again? && (out.Returned? ==> spawned)
      decreases |reader.source.input|
    {
      Interference(env(k));
      PassConsumes(cfg, View(), choice(k));
      assert |reader.source.input| == |old(reader.source.input)|;
      out := MakeOnePass(choice(k));
      if out.Again? {
        out := ReadPacket(env, choice, k + 1);
      }
    }
  }
}
