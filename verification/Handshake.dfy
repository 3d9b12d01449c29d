/**
  What every run of a server connection keeps. `Matched`, `Residue` and `Overrun` read the
  arrival sequence alone, by matching the handshake's script greedily from the front; the
  theorems say that the machine's registers, queue and panics are functions of them.
 */
module Handshake {
  import opened Bytes
  import opened ServerConn

  /** The packets a handshake needs, in order. */
  function Script(cfg: Config): (sc: seq<PacketId>)
    ensures 4 <= |sc| <= 5
  {
    if cfg.protocolID >= 776
    then [IdConnectionResponse, IdStartGame, IdItemRegistry, IdChunkRadiusUpdated, IdPlayStatus]
    else [IdConnectionResponse, IdStartGame, IdChunkRadiusUpdated, IdPlayStatus]
  }

  /** Handled and not kept for the client; the other two stages are handled and kept. */
  predicate Consumes(id: PacketId) {
    id == IdConnectionResponse || id == IdStartGame || id == IdItemRegistry
  }

  predicate Is(x: Item, id: PacketId) {
    x.Decoded? && Id(x.pk) == id
  }

  /** The first match of the script as a subsequence of the arrivals. */
  function Matched(script: seq<PacketId>, xs: seq<Item>): (ms: seq<Packet>)
    ensures |ms| <= |script|
    ensures forall i :: 0 <= i < |ms| ==> Id(ms[i]) == script[i]
    decreases |xs|
  {
    if xs == [] || script == [] then []
    else if Is(xs[0], script[0]) then [xs[0].pk] + Matched(script[1..], xs[1..])
    else Matched(script, xs[1..])
  }

  /** The arrivals without the matched packets that are consumed. */
  function Residue(script: seq<PacketId>, xs: seq<Item>): seq<Item>
    decreases |xs|
  {
    if xs == [] then []
    else if script != [] && Is(xs[0], script[0]) then
      (if Consumes(script[0]) then [] else [xs[0]]) + Residue(script[1..], xs[1..])
    else [xs[0]] + Residue(script, xs[1..])
  }

  /** Another PlayStatus arrives when the script has already been matched. */
  ghost predicate Overrun(script: seq<PacketId>, xs: seq<Item>) {
    exists k :: 0 <= k < |xs| && |Matched(script, xs[..k])| == |script| && Is(xs[k], IdPlayStatus)
  }

  function Items(pks: seq<Packet>): (xs: seq<Item>)
    ensures |xs| == |pks| && forall i :: 0 <= i < |pks| ==> xs[i] == Decoded(pks[i])
  {
    seq(|pks|, i requires 0 <= i < |pks| => Decoded(pks[i]))
  }

  function ExpandOne(cfg: Config, x: Item): seq<Item> {
    match x
    case Raw(_) => [x]
    case Decoded(pk) => Items(if cfg.syncProtocol then cfg.convert(pk) else [pk])
  }

  /** The arrivals after protocol conversion. */
  function Expand(cfg: Config, xs: seq<Item>): seq<Item> {
    if xs == [] then [] else Expand(cfg, xs[..|xs| - 1]) + ExpandOne(cfg, xs[|xs| - 1])
  }

  /** The game data that a (partial) handshake with packets `h` stands for. */
  function Published(cfg: Config, h: seq<Packet>): GameData
    requires |h| <= |Script(cfg)| && forall i :: 0 <= i < |h| ==> Id(h[i]) == Script(cfg)[i]
  {
    if |h| < 2 then NO_GAME_DATA else
    var radiusAt := |Script(cfg)| - 2;
    assert Id(h[0]) == Script(cfg)[0] && Id(h[1]) == Script(cfg)[1];
    assert |h| > 2 ==> Id(h[2]) == Script(cfg)[2];
    assert |h| > radiusAt ==> Id(h[radiusAt]) == Script(cfg)[radiusAt];
    GameData(h[1].world, h[0].uniqueID, h[0].runtimeID,
             if cfg.protocolID >= 776 && |h| > 2 then h[2].items else [],
             if |h| > radiusAt then h[radiusAt].radius else 0)
  }

  /** The shield ID known after a (partial) handshake with packets `h`: 0 until the item registry is handled. */
  function ShieldOf(cfg: Config, h: seq<Packet>): int
    requires |h| <= |Script(cfg)| && forall i :: 0 <= i < |h| ==> Id(h[i]) == Script(cfg)[i]
  {
    if cfg.protocolID < 776 || |h| < 3 then 0 else
    assert Id(h[2]) == Script(cfg)[2];
    ShieldAfter(h[2].items, 0)
  }

  // ---- how the reference definitions grow -------------------------------------------------

  /** The next arrival extends the match. */
  predicate Extends(script: seq<PacketId>, xs: seq<Item>, x: Item) {
    |Matched(script, xs)| < |script| && Is(x, script[|Matched(script, xs)|])
  }

  lemma {:induction false} MatchedSnoc(script: seq<PacketId>, xs: seq<Item>, x: Item)
    ensures Matched(script, xs + [x]) == Matched(script, xs) + (if Extends(script, xs, x) then [x.pk] else [])
    decreases |xs|
  {
    if xs == [] {
      assert (xs + [x])[1..] == [];
    } else if script != [] {
      assert (xs + [x])[1..] == xs[1..] + [x];
      if Is(xs[0], script[0]) {
        MatchedSnoc(script[1..], xs[1..], x);
      } else {
        MatchedSnoc(script, xs[1..], x);
      }
    }
  }

  /** What one more arrival adds to the residue. */
  function Added(script: seq<PacketId>, xs: seq<Item>, x: Item): seq<Item> {
    if Extends(script, xs, x) && Consumes(Id(x.pk)) then [] else [x]
  }

  lemma {:induction false} ResidueSnoc(script: seq<PacketId>, xs: seq<Item>, x: Item)
    ensures Residue(script, xs + [x]) == Residue(script, xs) + Added(script, xs, x)
    decreases |xs|
  {
    if xs == [] {
      assert (xs + [x])[1..] == [];
    } else {
      assert (xs + [x])[1..] == xs[1..] + [x] && (xs + [x])[0] == xs[0];
      var matches := script != [] && Is(xs[0], script[0]);
      var script' := if matches then script[1..] else script;
      var head := if matches && Consumes(script[0]) then [] else [xs[0]];
      ResidueSnoc(script', xs[1..], x);
      assert Added(script', xs[1..], x) == Added(script, xs, x);
      assert Residue(script, xs) == head + Residue(script', xs[1..]);
      assert Residue(script, xs + [x]) == head + Residue(script', xs[1..] + [x]);
      assert head + (Residue(script', xs[1..]) + Added(script, xs, x)) == Residue(script, xs) + Added(script, xs, x);
    }
  }

  lemma OverrunSnoc(script: seq<PacketId>, xs: seq<Item>, x: Item)
    ensures Overrun(script, xs + [x]) <==>
            Overrun(script, xs) || (|Matched(script, xs)| == |script| && Is(x, IdPlayStatus))
  {
    var ys := xs + [x];
    assert forall k :: 0 <= k <= |xs| ==> ys[..k] == xs[..k];
    assert ys[|xs|] == x && xs[..|xs|] == xs;
    if Overrun(script, xs) {
      var k :| 0 <= k < |xs| && |Matched(script, xs[..k])| == |script| && Is(xs[k], IdPlayStatus);
      assert ys[k] == xs[k] && |Matched(script, ys[..k])| == |script|;
    }
  }

  /** The consumed packets, in order. */
  function Consumed(script: seq<PacketId>, xs: seq<Item>): seq<Item>
    decreases |xs|
  {
    if xs == [] || script == [] then []
    else if Is(xs[0], script[0]) then
      (if Consumes(script[0]) then [xs[0]] else []) + Consumed(script[1..], xs[1..])
    else Consumed(script, xs[1..])
  }

  /** Nothing is lost or duplicated: the residue and the consumed packets are the arrivals. */
  lemma {:induction false} ResidueConserves(script: seq<PacketId>, xs: seq<Item>)
    ensures multiset(xs) == multiset(Residue(script, xs)) + multiset(Consumed(script, xs))
    ensures |Consumed(script, xs)| <= |script|
    decreases |xs|
  {
    if xs != [] {
      assert xs == [xs[0]] + xs[1..];
      if script != [] && Is(xs[0], script[0]) {
        ResidueConserves(script[1..], xs[1..]);
      } else {
        ResidueConserves(script, xs[1..]);
      }
    }
  }

  // ---- the invariant ----------------------------------------------------------------------

  /** Order, publication and conservation, all as functions of what has been seen. */
  ghost predicate Tracks(cfg: Config, s: State) {
    var script := Script(cfg);
    && s.log.handled == Matched(script, s.log.seen)
    && s.hs.expected == [if |s.log.handled| < |script| then script[|s.log.handled|] else IdPlayStatus]
    && (s.connected <==> |s.log.handled| == |script|)
    && s.log.requests == (if |s.log.handled| >= |script| - 2 then 1 else 0)
    && s.log.returned + s.deferred == Residue(script, s.log.seen) + s.log.later
    && (s.panic == DoubleClose <==> Overrun(script, s.log.seen))
  }

  ghost predicate Signals(s: State) {
    && (s.spawned ==> s.connected)
    && (s.callback && s.connected ==> s.spawned)
    && (!s.spawned ==> s.log.returned == [] && s.log.later == [])
  }

  ghost predicate Publishes(cfg: Config, s: State)
    requires Tracks(cfg, s)
  {
    && s.hs.gameData == Published(cfg, s.log.handled) && s.hs.shieldID == ShieldOf(cfg, s.log.handled)
    && (|s.log.handled| > 0 ==>
          s.hs.runtimeID == s.log.handled[0].runtimeID && s.hs.uniqueID == s.log.handled[0].uniqueID)
  }

  ghost predicate Inv(cfg: Config, s: State) {
    && Tracks(cfg, s) && Signals(s)
    && s.log.seen <= Expand(cfg, s.log.arrived)
    && ((s.closed && !s.connected) || (Publishes(cfg, s) && (Crashed(s) || s.log.seen == Expand(cfg, s.log.arrived))))
  }

  lemma InitialInv(cfg: Config, input: seq<Byte>, callback: bool)
    ensures Inv(cfg, New(input, callback))
  {
  }

  /** Examining one more packet, in terms of the script. */
  lemma SeenOne(cfg: Config, s: State, x: Item)
    requires Tracks(cfg, s)
    ensures var script := Script(cfg);
      && (Extends(script, s.log.seen, x) <==> !s.connected && Is(x, s.hs.expected[0]))
      && Matched(script, s.log.seen + [x]) == s.log.handled + (if Extends(script, s.log.seen, x) then [x.pk] else [])
      && Residue(script, s.log.seen + [x]) == Residue(script, s.log.seen) + Added(script, s.log.seen, x)
      && (Overrun(script, s.log.seen + [x]) <==> s.panic == DoubleClose || (s.connected && Is(x, IdPlayStatus)))
  {
    var script := Script(cfg);
    MatchedSnoc(script, s.log.seen, x);
    ResidueSnoc(script, s.log.seen, x);
    OverrunSnoc(script, s.log.seen, x);
  }

  /** The queue grows by exactly what the residue grows by. */
  lemma KeepsOrder(returned: seq<Item>, deferred: seq<Item>, residue: seq<Item>, x: Item)
    requires returned + deferred == residue + []
    ensures returned + (deferred + [x]) == (residue + [x]) + []
    ensures returned + deferred == (residue + []) + []
  {
    assert returned + (deferred + [x]) == (returned + deferred) + [x];
  }

  /** A live connection in the middle of its handshake pass. */
  ghost predicate Busy(cfg: Config, s: State) {
    && Tracks(cfg, s) && Signals(s) && Publishes(cfg, s)
    && !Crashed(s) && !s.closed && s.log.returned == [] && s.log.later == []
  }

  /** What one round of the loop guarantees whichever way it ends. */
  ghost predicate Kept(cfg: Config, r: Handled) {
    && Tracks(cfg, r.state) && Signals(r.state)
    && r.state.log.returned == [] && r.state.log.later == []
    && (r.ok ==> Busy(cfg, r.state))
    && (!r.ok ==> if Crashed(r.state) then Publishes(cfg, r.state) else !r.state.connected)
  }

  lemma DeferKeeps(cfg: Config, s: State, pk: Packet)
    requires Busy(cfg, s) && Id(pk) !in s.hs.expected
    ensures Kept(cfg, Handled(Defer(Examined(s, pk), Decoded(pk)), true))
  {
    SeenOne(cfg, s, Decoded(pk));
    KeepsOrder(s.log.returned, s.deferred, Residue(Script(cfg), s.log.seen), Decoded(pk));
  }

  lemma ConnectionResponseKeeps(cfg: Config, s: State, pk: Packet)
    requires Busy(cfg, s) && Id(pk) in s.hs.expected && pk.ConnectionResponse?
    ensures Kept(cfg, Handled(OnConnectionResponse(Examined(s, pk), pk), true))
  {
    SeenOne(cfg, s, Decoded(pk));
    KeepsOrder(s.log.returned, s.deferred, Residue(Script(cfg), s.log.seen), Decoded(pk));
    assert |s.log.handled| == 0;
  }

  lemma StartGameKeeps(cfg: Config, s: State, pk: Packet, writeOk: bool)
    requires Busy(cfg, s) && Id(pk) in s.hs.expected && pk.StartGame?
    ensures Kept(cfg, OnStartGame(cfg, Examined(s, pk), pk, writeOk))
  {
    SeenOne(cfg, s, Decoded(pk));
    KeepsOrder(s.log.returned, s.deferred, Residue(Script(cfg), s.log.seen), Decoded(pk));
    assert |s.log.handled| == 1;
    var r := OnStartGame(cfg, Examined(s, pk), pk, writeOk);
    if cfg.protocolID >= 776 {
      assert Tracks(cfg, r.state);
    } else if writeOk {
      assert Tracks(cfg, r.state);
    } else {
      assert Tracks(cfg, r.state);
    }
  }

  lemma ItemRegistryKeeps(cfg: Config, s: State, pk: Packet, writeOk: bool)
    requires Busy(cfg, s) && Id(pk) in s.hs.expected && pk.ItemRegistry?
    ensures Kept(cfg, OnItemRegistry(Examined(s, pk), pk, writeOk))
  {
    SeenOne(cfg, s, Decoded(pk));
    KeepsOrder(s.log.returned, s.deferred, Residue(Script(cfg), s.log.seen), Decoded(pk));
    assert |s.log.handled| == 2 && cfg.protocolID >= 776;
  }

  lemma ChunkRadiusKeeps(cfg: Config, s: State, pk: Packet)
    requires Busy(cfg, s) && Id(pk) in s.hs.expected && pk.ChunkRadiusUpdated?
    ensures Kept(cfg, Handled(OnChunkRadiusUpdated(Examined(s, pk), pk), true))
  {
    SeenOne(cfg, s, Decoded(pk));
    KeepsOrder(s.log.returned, s.deferred, Residue(Script(cfg), s.log.seen), Decoded(pk));
    assert |s.log.handled| == |Script(cfg)| - 2;
  }

  lemma PlayStatusKeeps(cfg: Config, s: State, pk: Packet)
    requires Busy(cfg, s) && Id(pk) in s.hs.expected && pk.PlayStatus?
    ensures Kept(cfg, OnPlayStatus(Examined(s, pk), pk))
  {
    SeenOne(cfg, s, Decoded(pk));
    KeepsOrder(s.log.returned, s.deferred, Residue(Script(cfg), s.log.seen), Decoded(pk));
    var r := OnPlayStatus(Examined(s, pk), pk);
    if s.connected {
      assert Tracks(cfg, r.state);
    } else if s.callback {
      assert Tracks(cfg, r.state) && Signals(r.state);
    } else {
      assert Tracks(cfg, r.state);
    }
  }

  lemma HandleOneKeeps(cfg: Config, s: State, pk: Packet, writeOk: bool)
    requires Busy(cfg, s)
    ensures Kept(cfg, HandleOne(cfg, s, pk, writeOk))
  {
    if Id(pk) !in s.hs.expected {
      DeferKeeps(cfg, s, pk);
    } else {
      match pk
      case ConnectionResponse(_, _) => ConnectionResponseKeeps(cfg, s, pk);
      case StartGame(_) => StartGameKeeps(cfg, s, pk, writeOk);
      case ItemRegistry(_) => ItemRegistryKeeps(cfg, s, pk, writeOk);
      case ChunkRadiusUpdated(_) => ChunkRadiusKeeps(cfg, s, pk);
      case PlayStatus(_) => PlayStatusKeeps(cfg, s, pk);
      case _ => assert false;
    }
  }

  lemma {:induction false} HandleAllKeeps(cfg: Config, s: State, pks: seq<Packet>, writeOk: bool)
    requires Busy(cfg, s)
    ensures Kept(cfg, HandleAll(cfg, s, pks, writeOk))
    decreases |pks|
  {
    if pks != [] {
      var r := HandleOne(cfg, s, pks[0], writeOk);
      HandleOneKeeps(cfg, s, pks[0], writeOk);
      if r.ok {
        HandleAllKeeps(cfg, r.state, pks[1..], writeOk);
      }
    }
  }

  lemma HandleOneSees(cfg: Config, s: State, pk: Packet, writeOk: bool)
    ensures HandleOne(cfg, s, pk, writeOk).state.log.seen == s.log.seen + [Decoded(pk)]
  {
    if Id(pk) in s.hs.expected {
      match pk
      case ConnectionResponse(_, _) =>
      case StartGame(_) => if cfg.protocolID >= 776 {}
      case ItemRegistry(_) =>
      case ChunkRadiusUpdated(_) =>
      case PlayStatus(_) => if !s.connected { if s.callback { if s.closed {} else if s.spawned {} } }
      case _ =>
    }
  }

  /** The loop examines the packets in order, all of them unless it ends early. */
  lemma {:induction false} HandleAllSees(cfg: Config, s: State, pks: seq<Packet>, writeOk: bool)
    ensures var r := HandleAll(cfg, s, pks, writeOk);
      && r.state.log.seen <= s.log.seen + Items(pks)
      && (r.ok ==> r.state.log.seen == s.log.seen + Items(pks))
    decreases |pks|
  {
    if pks == [] {
      assert s.log.seen + Items(pks) == s.log.seen;
    } else {
      var r := HandleOne(cfg, s, pks[0], writeOk);
      HandleOneSees(cfg, s, pks[0], writeOk);
      assert s.log.seen + Items(pks) == (s.log.seen + [Decoded(pks[0])]) + Items(pks[1..]);
      if r.ok {
        HandleAllSees(cfg, r.state, pks[1..], writeOk);
      }
    }
  }

  lemma ExpandSnoc(cfg: Config, xs: seq<Item>, x: Item)
    ensures Expand(cfg, xs + [x]) == Expand(cfg, xs) + ExpandOne(cfg, x)
  {
    assert (xs + [x])[..|xs|] == xs;
  }

  lemma ReturnDeferredKeeps(cfg: Config, s: State)
    requires Inv(cfg, s) && !Crashed(s) && s.spawned && s.deferred != []
    ensures Inv(cfg, s.(deferred := s.deferred[1..], log := s.log.(returned := s.log.returned + [s.deferred[0]])))
  {
    assert s.log.returned + s.deferred == (s.log.returned + [s.deferred[0]]) + s.deferred[1..];
  }

  lemma ReturnReadKeeps(cfg: Config, s: State, item: Item, rest: seq<Byte>)
    requires Inv(cfg, s) && !Crashed(s) && s.spawned && s.deferred == []
    ensures Inv(cfg, s.(input := rest, log := s.log.(later := s.log.later + [item], returned := s.log.returned + [item])))
  {
    var residue := Residue(Script(cfg), s.log.seen);
    assert (s.log.returned + [item]) + [] == (s.log.returned + []) + [item];
    assert (residue + s.log.later) + [item] == residue + (s.log.later + [item]);
  }

  lemma SpawnedPassKeeps(cfg: Config, s: State, ch: Choice)
    requires Inv(cfg, s) && !Crashed(s) && s.spawned
    ensures Inv(cfg, IterateSpawned(cfg, s, ch).state)
  {
    if s.deferred != [] {
      ReturnDeferredKeeps(cfg, s);
    } else {
      match Read(cfg, s.input, s.hs.shieldID, ch.readOk)
      case ReadPanic(rest) => assert Tracks(cfg, s.(input := rest, panic := EmptyFrame));
      case ReadFail(rest) => assert Tracks(cfg, s.(input := rest));
      case ReadItem(item, rest) => ReturnReadKeeps(cfg, s, item, rest);
    }
  }

  lemma RawKeeps(cfg: Config, s: State, item: Item, rest: seq<Byte>)
    requires Inv(cfg, s) && !Crashed(s) && !s.spawned && !s.closed && item.Raw?
    ensures Inv(cfg, HandleRaw(Arrived(s, item, rest), item))
  {
    ExpandSnoc(cfg, s.log.arrived, item);
    SeenOne(cfg, s, item);
    KeepsOrder(s.log.returned, s.deferred, Residue(Script(cfg), s.log.seen), item);
  }

  /** What a handshake pass leaves, once an error has closed the connection. */
  lemma DecodedKeeps(cfg: Config, s: State, pk: Packet, rest: seq<Byte>, writeOk: bool)
    requires Inv(cfg, s) && !Crashed(s) && !s.spawned && !s.closed
    ensures var r := HandleAll(cfg, Arrived(s, Decoded(pk), rest), Converted(cfg, pk), writeOk);
            Inv(cfg, if r.ok || Crashed(r.state) then r.state else Close(r.state))
  {
    var t := Arrived(s, Decoded(pk), rest);
    var pks := Converted(cfg, pk);
    ExpandSnoc(cfg, s.log.arrived, Decoded(pk));
    assert Busy(cfg, t);
    HandleAllKeeps(cfg, t, pks, writeOk);
    HandleAllSees(cfg, t, pks, writeOk);
    HandleAllFrame(cfg, t, pks, writeOk);
    var r := HandleAll(cfg, t, pks, writeOk);
    assert t.log.seen + Items(pks) == Expand(cfg, r.state.log.arrived);
    if r.ok {
    } else if Crashed(r.state) {
    } else {
      assert Tracks(cfg, Close(r.state)) && Signals(Close(r.state));
    }
  }

  lemma CloseKeeps(cfg: Config, s: State)
    requires Inv(cfg, s)
    ensures Inv(cfg, Close(s))
  {
    assert Tracks(cfg, Close(s)) && Signals(Close(s));
  }

  lemma PassKeeps(cfg: Config, s: State, ch: Choice)
    requires Inv(cfg, s)
    ensures var p := Iterate(cfg, s, ch);
            Inv(cfg, if p.outcome.Error? then Close(p.state) else p.state)
  {
    if Crashed(s) {
    } else if s.closed && (!s.spawned || ch.takeClosed) {
      CloseKeeps(cfg, s);
    } else if s.spawned {
      SpawnedPassKeeps(cfg, s, ch);
      CloseKeeps(cfg, IterateSpawned(cfg, s, ch).state);
    } else {
      match Read(cfg, s.input, s.hs.shieldID, ch.readOk)
      case ReadPanic(rest) =>
        assert Tracks(cfg, s.(input := rest, panic := EmptyFrame));
      case ReadFail(rest) =>
        assert Tracks(cfg, s.(input := rest));
        CloseKeeps(cfg, s.(input := rest));
      case ReadItem(item, rest) =>
        match item
        case Raw(_) => RawKeeps(cfg, s, item, rest);
        case Decoded(pk) => DecodedKeeps(cfg, s, pk, rest, ch.writeOk);
    }
  }

  lemma SpawnKeeps(cfg: Config, s: State)
    requires Inv(cfg, s) && s.connected && !s.callback && !s.spawned && !s.closed
    ensures Inv(cfg, DoSpawn(s).state)
  {
    var t := s.(spawned := true);
    assert Tracks(cfg, t) && Signals(t) && Publishes(cfg, t);
  }

  /** What a pass can do to the signals: nothing, or complete the handshake of an open connection. */
  ghost predicate PassEffect(s: State, p: Pass) {
    var t := p.state;
    && t.callback == s.callback && t.closed == s.closed
    && (s.connected ==> t.connected) && (t.connected && !s.connected ==> !s.closed && (p.outcome.Again? || p.outcome.Crash?))
    && (t.spawned <==> s.spawned || (s.callback && !s.connected && t.connected))
    && (p.outcome.Returned? ==> s.spawned)
    && (p.outcome.Crash? <==> Crashed(t))
  }

  lemma DecodedEffects(cfg: Config, s: State, pk: Packet, rest: seq<Byte>, writeOk: bool)
    requires Inv(cfg, s) && !Crashed(s) && !s.closed && !s.spawned
    ensures var r := HandleAll(cfg, Arrived(s, Decoded(pk), rest), Converted(cfg, pk), writeOk);
            PassEffect(s, Pass(r.state, if Crashed(r.state) then Crash else if r.ok then Again else Error))
  {
    var t := Arrived(s, Decoded(pk), rest);
    var pks := Converted(cfg, pk);
    assert Busy(cfg, t);
    HandleAllFrame(cfg, t, pks, writeOk);
    HandleAllKeeps(cfg, t, pks, writeOk);
  }

  lemma PassEffects(cfg: Config, s: State, ch: Choice)
    requires Inv(cfg, s)
    ensures PassEffect(s, Iterate(cfg, s, ch))
  {
    if Crashed(s) {
    } else if s.closed && (!s.spawned || ch.takeClosed) {
    } else if s.spawned {
      if s.deferred == [] {
        match Read(cfg, s.input, s.hs.shieldID, ch.readOk)
        case ReadPanic(_) =>
        case ReadFail(_) =>
        case ReadItem(_, _) =>
      }
    } else {
      match Read(cfg, s.input, s.hs.shieldID, ch.readOk)
      case ReadPanic(_) =>
      case ReadFail(_) =>
      case ReadItem(item, rest) =>
        match item
        case Raw(_) =>
        case Decoded(pk) => DecodedEffects(cfg, s, pk, rest, ch.writeOk);
    }
  }

  lemma StepKeeps(cfg: Config, s: State, e: Event)
    requires Inv(cfg, s)
    ensures Inv(cfg, Step(cfg, s, e))
  {
    if !Crashed(s) {
      match e
      case MakePass(ch) => PassKeeps(cfg, s, ch);
      case LoginSpawn => if s.connected && !s.callback && !s.spawned && !s.closed { SpawnKeeps(cfg, s); }
      case CloseIt => CloseKeeps(cfg, s);
    }
  }

  lemma {:induction false} RunKeeps(cfg: Config, s: State, es: seq<Event>)
    requires Inv(cfg, s)
    ensures Inv(cfg, Run(cfg, s, es))
    decreases |es|
  {
    if es != [] {
      StepKeeps(cfg, s, es[0]);
      RunKeeps(cfg, Step(cfg, s, es[0]), es[1..]);
    }
  }

  // ---- theorems over every run ------------------------------------------------------------

  /**
    Delivery conservation. In every run, what ReadPacket has returned followed by what is still
    deferred is the pre-spawn arrivals less exactly the consumed ConnectionResponse, StartGame
    and ItemRegistry, followed by the post-spawn arrivals, all in order. The converted arrivals
    were all examined, except those behind a handler error or panic, after which nothing is
    ever returned.
   */
  lemma DeliveryConservation(cfg: Config, input: seq<Byte>, callback: bool, es: seq<Event>)
    ensures var s := Run(cfg, New(input, callback), es);
      && s.log.returned + s.deferred == Residue(Script(cfg), s.log.seen) + s.log.later
      && multiset(s.log.seen) == multiset(Residue(Script(cfg), s.log.seen)) + multiset(Consumed(Script(cfg), s.log.seen))
      && s.log.seen <= Expand(cfg, s.log.arrived)
      && (s.log.seen != Expand(cfg, s.log.arrived) ==> Crashed(s) || (s.closed && !s.spawned && s.log.returned == []))
  {
    RunKeeps(cfg, New(input, callback), es);
    ResidueConserves(Script(cfg), Run(cfg, New(input, callback), es).log.seen);
  }

  /**
    Handshake order. In every run the handled packets are the first match of the script in the
    arrivals; `connected` means that the script is complete, RequestChunkRadius was attempted
    exactly once and the game data is the one those packets stand for.
   */
  lemma HandshakeOrder(cfg: Config, input: seq<Byte>, callback: bool, es: seq<Event>)
    ensures var s := Run(cfg, New(input, callback), es);
      && s.log.handled == Matched(Script(cfg), s.log.seen)
      && (s.connected <==> |Matched(Script(cfg), s.log.seen)| == |Script(cfg)|)
      && s.log.requests <= 1
      && (s.connected ==>
            && s.log.requests == 1
            && s.hs.gameData == Published(cfg, s.log.handled) && s.hs.shieldID == ShieldOf(cfg, s.log.handled)
            && s.hs.gameData.runtimeID == s.hs.runtimeID == s.log.handled[0].runtimeID
            && s.hs.gameData.uniqueID == s.hs.uniqueID == s.log.handled[0].uniqueID)
  {
    RunKeeps(cfg, New(input, callback), es);
  }

  /** No packet is returned before spawn, and spawn never precedes `connected`. */
  lemma NothingReturnedBeforeSpawn(cfg: Config, input: seq<Byte>, callback: bool, es: seq<Event>)
    ensures var s := Run(cfg, New(input, callback), es);
      (s.log.returned != [] ==> s.spawned) && (s.spawned ==> s.connected)
  {
    RunKeeps(cfg, New(input, callback), es);
  }

  lemma RunAppend(cfg: Config, s: State, es: seq<Event>, fs: seq<Event>)
    ensures Run(cfg, s, es + fs) == Run(cfg, Run(cfg, s, es), fs)
    decreases |es|
  {
    if es == [] {
      assert es + fs == fs;
    } else {
      assert (es + fs)[1..] == es[1..] + fs;
      RunAppend(cfg, Step(cfg, s, es[0]), es[1..], fs);
    }
  }

  /** Once connected, the handlers only defer. */
  lemma {:induction false} HandleAllStable(cfg: Config, s: State, pks: seq<Packet>, writeOk: bool)
    requires s.connected && s.hs.expected == [IdPlayStatus]
    ensures var t := HandleAll(cfg, s, pks, writeOk).state; t.hs == s.hs && t.connected
    decreases |pks|
  {
    if pks != [] {
      var r := HandleOne(cfg, s, pks[0], writeOk);
      assert r.state.hs == s.hs && r.state.connected by {
        if pks[0].PlayStatus? {}
      }
      if r.ok {
        HandleAllStable(cfg, r.state, pks[1..], writeOk);
      }
    }
  }

  lemma PassStable(cfg: Config, s: State, ch: Choice)
    requires s.connected && s.hs.expected == [IdPlayStatus]
    ensures var t := Iterate(cfg, s, ch).state; t.hs == s.hs && t.connected
  {
    if Crashed(s) {
    } else if s.closed && (!s.spawned || ch.takeClosed) {
    } else if s.spawned {
    } else {
      match Read(cfg, s.input, s.hs.shieldID, ch.readOk)
      case ReadPanic(_) =>
      case ReadFail(_) =>
      case ReadItem(item, rest) =>
        if item.Decoded? {
          HandleAllStable(cfg, Arrived(s, item, rest), Converted(cfg, item.pk), ch.writeOk);
        }
    }
  }

  lemma StepStable(cfg: Config, s: State, e: Event)
    requires Inv(cfg, s) && s.connected
    ensures Step(cfg, s, e).hs == s.hs && Step(cfg, s, e).connected
  {
    if e.MakePass? {
      PassStable(cfg, s, e.ch);
    }
  }

  lemma {:induction false} RunStable(cfg: Config, s: State, es: seq<Event>)
    requires Inv(cfg, s) && s.connected
    ensures Run(cfg, s, es).hs == s.hs && Run(cfg, s, es).connected
    decreases |es|
  {
    if es != [] {
      StepStable(cfg, s, es[0]);
      StepKeeps(cfg, s, es[0]);
      RunStable(cfg, Step(cfg, s, es[0]), es[1..]);
    }
  }

  /** Stable publication: from `connected` on, the game data and both IDs never change again. */
  lemma StablePublication(cfg: Config, input: seq<Byte>, callback: bool, es: seq<Event>, more: seq<Event>)
    requires Run(cfg, New(input, callback), es).connected
    ensures Run(cfg, New(input, callback), es + more).connected
    ensures Run(cfg, New(input, callback), es + more).hs == Run(cfg, New(input, callback), es).hs
  {
    RunKeeps(cfg, New(input, callback), es);
    RunStable(cfg, Run(cfg, New(input, callback), es), more);
    RunAppend(cfg, New(input, callback), es, more);
  }

  // ---- panics -----------------------------------------------------------------------------

  /** In every run `connected` is closed twice exactly when a PlayStatus overruns the script before spawn. */
  lemma DoubleCloseIff(cfg: Config, input: seq<Byte>, callback: bool, es: seq<Event>)
    ensures var s := Run(cfg, New(input, callback), es);
            s.panic == DoubleClose <==> Overrun(Script(cfg), s.log.seen)
  {
    RunKeeps(cfg, New(input, callback), es);
  }

  lemma {:induction false} CompleteMatchHasLast(script: seq<PacketId>, xs: seq<Item>) returns (i: nat)
    requires script != [] && |Matched(script, xs)| == |script|
    ensures i < |xs| && Is(xs[i], script[|script| - 1])
    decreases |xs|
  {
    if Is(xs[0], script[0]) {
      if |script| == 1 {
        i := 0;
      } else {
        i := CompleteMatchHasLast(script[1..], xs[1..]);
        i := i + 1;
      }
    } else {
      i := CompleteMatchHasLast(script, xs[1..]);
      i := i + 1;
    }
  }

  lemma OverrunHasTwo(cfg: Config, xs: seq<Item>) returns (i: nat, j: nat)
    requires Overrun(Script(cfg), xs)
    ensures i < j < |xs| && Is(xs[i], IdPlayStatus) && Is(xs[j], IdPlayStatus)
  {
    var k :| 0 <= k < |xs| && |Matched(Script(cfg), xs[..k])| == |Script(cfg)| && Is(xs[k], IdPlayStatus);
    i := CompleteMatchHasLast(Script(cfg), xs[..k]);
    j := k;
  }

  /** On any path, at most one PlayStatus before spawn is enough to avoid that panic. */
  lemma OnePlayStatusIsSafe(cfg: Config, input: seq<Byte>, callback: bool, es: seq<Event>)
    requires var xs := Run(cfg, New(input, callback), es).log.seen;
             forall i, j :: 0 <= i < j < |xs| ==> !Is(xs[i], IdPlayStatus) || !Is(xs[j], IdPlayStatus)
    ensures Run(cfg, New(input, callback), es).panic != DoubleClose
  {
    var xs := Run(cfg, New(input, callback), es).log.seen;
    DoubleCloseIff(cfg, input, callback, es);
    if Overrun(Script(cfg), xs) {
      var i, j := OverrunHasTwo(cfg, xs);
    }
  }

  lemma HandleOneNoDoubleClose(cfg: Config, s: State, pk: Packet, writeOk: bool)
    requires !s.connected && !s.spawned && s.panic != DoubleClose
    ensures HandleOne(cfg, s, pk, writeOk).state.panic != DoubleClose
  {
    if Id(pk) in s.hs.expected {
      match pk
      case ConnectionResponse(_, _) =>
      case StartGame(_) => if cfg.protocolID >= 776 {}
      case ItemRegistry(_) =>
      case ChunkRadiusUpdated(_) =>
      case PlayStatus(_) => if s.callback { if s.closed {} }
      case _ =>
    }
  }

  lemma PassNoDoubleClose(cfg: Config, s: State, ch: Choice)
    requires Inv(cfg, s) && s.callback && !cfg.syncProtocol && s.panic != DoubleClose
    ensures var t := Iterate(cfg, s, ch).state; t.callback && t.panic != DoubleClose
  {
    if !Crashed(s) && !s.closed && !s.spawned {
      var r := Read(cfg, s.input, s.hs.shieldID, ch.readOk);
      if r.ReadItem? && r.item.Decoded? {
        var t := Arrived(s, r.item, r.rest);
        HandleAllFrame(cfg, t, [r.item.pk], ch.writeOk);
        HandleOneNoDoubleClose(cfg, t, r.item.pk, ch.writeOk);
        assert HandleAll(cfg, t, [r.item.pk], ch.writeOk).state == HandleOne(cfg, t, r.item.pk, ch.writeOk).state;
      }
    }
  }

  lemma StepNoDoubleClose(cfg: Config, s: State, e: Event)
    requires Inv(cfg, s) && s.callback && !cfg.syncProtocol && s.panic != DoubleClose
    ensures Step(cfg, s, e).callback && Step(cfg, s, e).panic != DoubleClose
  {
    if e.MakePass? {
      PassNoDoubleClose(cfg, s, e.ch);
    }
  }

  lemma {:induction false} RunNoDoubleClose(cfg: Config, s: State, es: seq<Event>)
    requires Inv(cfg, s) && s.callback && !cfg.syncProtocol && s.panic != DoubleClose
    ensures Run(cfg, s, es).panic != DoubleClose
    decreases |es|
  {
    if es != [] {
      StepKeeps(cfg, s, es[0]);
      StepNoDoubleClose(cfg, s, es[0]);
      RunNoDoubleClose(cfg, Step(cfg, s, es[0]), es[1..]);
    }
  }

  /** On the transfer path without protocol conversion it never happens, whatever the server sends. */
  lemma TransferPathIsSafe(cfg: Config, input: seq<Byte>, es: seq<Event>)
    requires !cfg.syncProtocol
    ensures Run(cfg, New(input, true), es).panic != DoubleClose
  {
    RunNoDoubleClose(cfg, New(input, true), es);
  }
}
