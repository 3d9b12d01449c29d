/**
  What a server connection is bound to do, as opposed to what it must not: from every reachable open
  state, passes that meet no transport error deliver everything on the wire; a `ReadPacket` call is
  the first of its passes that does not loop; a failed chunk radius request is an error; and a
  closed connection makes no further progress.
 */
module ConnProgress {
  import opened Bytes
  import opened Framing
  import opened ServerConn
  import opened Handshake
  import opened WireDelivery

  const WELL: Choice := Choice(false, true, true)

  // ---- complete delivery ------------------------------------------------------------------

  /** A stream determines its frames, so frames read from the front of it are its first frames. */
  lemma {:induction false} FirstFrames(fs: seq<Payload>, gs: seq<Payload>, tail: seq<Byte>)
    requires Framable(fs) && Framable(gs) && Stream(fs) == Stream(gs) + tail
    ensures |gs| <= |fs| && gs == fs[..|gs|] && tail == Stream(fs[|gs|..])
    decreases |gs|
  {
    if gs == [] {
      assert Stream(gs) + tail == tail;
    } else {
      var rest := Stream(gs[1..]) + tail;
      assert Stream(fs) == Frame(gs[0]) + rest;
      FrameRoundTripIff(gs[0], rest);
      FrameRoundTripIff(fs[0], Stream(fs[1..]));
      FirstFrames(fs[1..], gs[1..], tail);
      assert fs[1..][|gs| - 1..] == fs[|gs|..];
    }
  }

  /** If every frame stands for an item, so does the next one after any number of them. */
  lemma {:induction false} NextFrameOpens(cfg: Config, fs: seq<Payload>, k: nat)
    requires k <= |fs|
    ensures |ItemsOf(cfg, fs)| - |ItemsOf(cfg, fs[..k])| <= |fs| - k
    ensures |ItemsOf(cfg, fs[..k])| <= k
    ensures |ItemsOf(cfg, fs)| == |fs| && k < |fs| ==>
            Opened(cfg, fs[k], ShieldKnown(cfg, ItemsOf(cfg, fs[..k]))).Some?
    decreases |fs|
  {
    if fs != [] {
      var init, f := fs[..|fs| - 1], fs[|fs| - 1];
      assert fs == init + [f] && fs[..|fs|] == fs;
      ItemsOfSnoc(cfg, init, f);
      if k < |fs| {
        assert init[..k] == fs[..k];
        NextFrameOpens(cfg, init, k);
        NextFrameOpens(cfg, init, 0);
        assert init[..0] == [];
      } else {
        NextFrameOpens(cfg, init, |init|);
        assert init[..|init|] == init;
      }
    }
  }

  lemma HandleOneSucceeds(cfg: Config, s: State, pk: Packet)
    requires !s.connected && !s.spawned && !s.closed && !Crashed(s)
    ensures var r := HandleOne(cfg, s, pk, true); r.ok && !Crashed(r.state)
  {
    if Id(pk) in s.hs.expected {
      match pk
      case ConnectionResponse(_, _) =>
      case StartGame(_) => if cfg.protocolID >= 776 {}
      case ItemRegistry(_) =>
      case ChunkRadiusUpdated(_) =>
      case PlayStatus(_) => if s.callback {}
      case _ =>
    }
  }

  /** Before the handshake is complete, a pass over a frame that opens takes it and loops. */
  lemma HandshakePassSucceeds(cfg: Config, s: State)
    requires !cfg.syncProtocol && Open(s) && !s.spawned && !s.connected
    requires Read(cfg, s.input, s.hs.shieldID, true).ReadItem?
    ensures var p := Iterate(cfg, s, WELL);
      p.outcome.Again? && Open(p.state) && p.state.input == Read(cfg, s.input, s.hs.shieldID, true).rest
  {
    var r := Read(cfg, s.input, s.hs.shieldID, true);
    var t := Arrived(s, r.item, r.rest);
    if r.item.Decoded? {
      HandleOneSucceeds(cfg, t, r.item.pk);
      HandleOneFrame(cfg, t, r.item.pk, true);
      assert HandleAll(cfg, t, [r.item.pk], true) == HandleOne(cfg, t, r.item.pk, true);
    }
  }

  /** The next thing to do: the login path spawns once connected, otherwise a pass is made. */
  function NextEvent(s: State): Event {
    if s.connected && !s.spawned then LoginSpawn else MakePass(WELL)
  }

  predicate Done(s: State) {
    s.spawned && s.deferred == [] && s.input == []
  }

  /** What is known of a connection in the middle of a run over the frames `fs`, `gs` of them read. */
  ghost predicate Midway(cfg: Config, fs: seq<Payload>, s: State, gs: seq<Payload>) {
    Inv(cfg, s) && Open(s) && Fed(cfg, Stream(fs), s, gs, s.input)
  }

  /** Every frame opens, and the items contain a complete handshake. */
  ghost predicate Complete(cfg: Config, fs: seq<Payload>) {
    && !cfg.syncProtocol && Framable(fs) && |ItemsOf(cfg, fs)| == |fs|
    && |Matched(Script(cfg), ItemsOf(cfg, fs))| == |Script(cfg)|
  }

  lemma {:induction false} ExpandIsIdentity(cfg: Config, xs: seq<Item>)
    requires !cfg.syncProtocol
    ensures Expand(cfg, xs) == xs
    decreases |xs|
  {
    if xs != [] {
      ExpandIsIdentity(cfg, xs[..|xs| - 1]);
    }
  }

  lemma StreamIsEmpty(fs: seq<Payload>)
    requires Stream(fs) == []
    ensures fs == []
  {
    assert fs != [] ==> |Stream(fs)| >= 4;
  }

  /** With nothing left to read, the handshake is complete. */
  lemma DrainedIsConnected(cfg: Config, fs: seq<Payload>, s: State, gs: seq<Payload>)
    requires Complete(cfg, fs) && Midway(cfg, fs, s, gs) && s.input == [] && !s.spawned
    ensures s.connected && !s.callback
  {
    FirstFrames(fs, gs, []);
    StreamIsEmpty(fs[|gs|..]);
    assert gs == fs && s.log.arrived + s.log.later == s.log.arrived;
    ExpandIsIdentity(cfg, s.log.arrived);
  }

  /** With something left to read, the next read gives an item. */
  lemma NextReadSucceeds(cfg: Config, fs: seq<Payload>, s: State, gs: seq<Payload>)
    requires Complete(cfg, fs) && Midway(cfg, fs, s, gs) && s.input != []
    ensures Read(cfg, s.input, s.hs.shieldID, true).ReadItem?
  {
    FirstFrames(fs, gs, s.input);
    var k := |gs|;
    assert Stream([]) == [];
    assert fs[k..][0] == fs[k] && fs[k..][1..] == fs[k + 1..];
    NextFrameOpens(cfg, fs, k);
    ShieldIsKnown(cfg, s);
    ReadOpensFrame(cfg, fs[k], Stream(fs[k + 1..]), s.hs.shieldID);
  }

  /** One step makes progress: the input shrinks, or the player spawns, or a deferred packet is handed out. */
  lemma StepProgresses(cfg: Config, fs: seq<Payload>, s: State, gs: seq<Payload>) returns (hs: seq<Payload>)
    requires Complete(cfg, fs) && Midway(cfg, fs, s, gs) && !Done(s)
    ensures var t := Step(cfg, s, NextEvent(s));
      && Midway(cfg, fs, t, hs)
      && (|t.input| < |s.input| ||
          (t.input == s.input && ((t.spawned && !s.spawned) || (t.spawned && s.spawned && |t.deferred| < |s.deferred|))))
  {
    var e := NextEvent(s);
    var t := Step(cfg, s, e);
    StepKeeps(cfg, s, e);
    var rest;
    hs, rest := StepFeeds(cfg, Stream(fs), s, gs, s.input, e);
    if s.connected && !s.spawned {
      assert t.spawned && Open(t);
    } else if s.spawned && s.deferred != [] {
      assert Open(t);
    } else {
      if s.input == [] && !s.spawned { DrainedIsConnected(cfg, fs, s, gs); }
      NextReadSucceeds(cfg, fs, s, gs);
      if !s.spawned { HandshakePassSucceeds(cfg, s); }
      assert Open(t) && |t.input| < |s.input|;
    }
  }

  lemma {:induction false} Drain(cfg: Config, fs: seq<Payload>, s: State, gs: seq<Payload>)
    returns (es: seq<Event>, hs: seq<Payload>)
    requires Complete(cfg, fs) && Midway(cfg, fs, s, gs)
    ensures Midway(cfg, fs, Run(cfg, s, es), hs) && Done(Run(cfg, s, es))
    ensures forall k :: 0 <= k < |es| ==> es[k] == LoginSpawn || es[k] == MakePass(WELL)
    decreases |s.input|, if s.spawned then 0 else 1, |s.deferred|
  {
    if Done(s) {
      es, hs := [], gs;
    } else {
      var e := NextEvent(s);
      var t := Step(cfg, s, e);
      var gs' := StepProgresses(cfg, fs, s, gs);
      es, hs := Drain(cfg, fs, t, gs');
      assert ([e] + es)[1..] == es;
      es := [e] + es;
    }
  }

  /** Behind a complete match nothing is consumed any more. */
  lemma {:induction false} ResidueIsFinal(script: seq<PacketId>, xs: seq<Item>, ys: seq<Item>)
    requires |Matched(script, xs)| == |script|
    ensures Residue(script, xs + ys) == Residue(script, xs) + ys
    decreases |ys|
  {
    if ys == [] {
      assert xs + ys == xs;
    } else {
      var init, y := ys[..|ys| - 1], ys[|ys| - 1];
      ResidueIsFinal(script, xs, init);
      CompleteMatchIsFinal(script, xs, init);
      assert xs + ys == (xs + init) + [y];
      ResidueSnoc(script, xs + init, y);
      Regroup(Residue(script, xs), init, [y]);
    }
  }

  lemma DrainedReturnsAll(cfg: Config, fs: seq<Payload>, s: State, gs: seq<Payload>)
    requires Complete(cfg, fs) && Midway(cfg, fs, s, gs) && Done(s)
    ensures s.log.returned == Residue(Script(cfg), ItemsOf(cfg, fs))
  {
    FirstFrames(fs, gs, []);
    StreamIsEmpty(fs[|gs|..]);
    assert gs == fs;
    ExpandIsIdentity(cfg, s.log.arrived);
    ResidueIsFinal(Script(cfg), s.log.arrived, s.log.later);
  }

  /**
    Complete delivery. Without SyncProtocol, let every frame on the wire open and let the items
    contain a complete handshake. From every reachable open state the connection can go on, without
    a transport error, until `ReadPacket` has returned exactly those items, in order, less the
    consumed handshake packets; nothing is left over and it is still open.
   */
  lemma EverythingIsDelivered(cfg: Config, fs: seq<Payload>, callback: bool, es: seq<Event>) returns (more: seq<Event>)
    requires Complete(cfg, fs) && Open(Run(cfg, New(Stream(fs), callback), es))
    ensures forall k :: 0 <= k < |more| ==> more[k] == LoginSpawn || more[k] == MakePass(WELL)
    ensures var t := Run(cfg, New(Stream(fs), callback), es + more);
      t.log.returned == Residue(Script(cfg), ItemsOf(cfg, fs)) && Open(t) && Done(t)
  {
    var s0 := New(Stream(fs), callback);
    InitialInv(cfg, Stream(fs), callback);
    assert Stream([]) + Stream(fs) == Stream(fs);
    var gs, tail := RunFeeds(cfg, Stream(fs), s0, [], Stream(fs), es);
    RunKeeps(cfg, s0, es);
    var hs;
    more, hs := Drain(cfg, fs, Run(cfg, s0, es), gs);
    RunAppend(cfg, s0, es, more);
    DrainedReturnsAll(cfg, fs, Run(cfg, s0, es + more), hs);
  }

  // ---- one call of ReadPacket -------------------------------------------------------------

  /** Pass `n` of a call that begins in `s`, each pass after whatever other goroutines did first. */
  function PassOf(cfg: Config, s: State, env: nat -> Option<Event>, choice: nat -> Choice, k: nat, n: nat): Pass
    decreases n
  {
    var p := Iterate(cfg, Interfere(cfg, s, env(k)), choice(k));
    if n == 0 then p else PassOf(cfg, p.state, env, choice, k + 1, n - 1)
  }

  lemma PassOfNext(cfg: Config, s: State, env: nat -> Option<Event>, choice: nat -> Choice, k: nat, n: nat, p: Pass)
    requires p == PassOf(cfg, s, env, choice, k, 0)
    ensures PassOf(cfg, s, env, choice, k, n + 1) == PassOf(cfg, p.state, env, choice, k + 1, n)
  {
  }

  lemma CallUnfolds(cfg: Config, s: State, env: nat -> Option<Event>, choice: nat -> Choice, k: nat, p: Pass)
    requires p == PassOf(cfg, s, env, choice, k, 0)
    ensures ReadPacket(cfg, s, env, choice, k) ==
            if p.outcome.Again? then ReadPacket(cfg, p.state, env, choice, k + 1) else p
    ensures p.outcome.Again? ==> |p.state.input| < |s.input|
  {
    var t := Interfere(cfg, s, env(k));
    PassConsumes(cfg, t, choice(k));
    assert t.input == s.input;
  }

  /** A call makes passes until one does not loop, and that pass is its result. */
  lemma {:induction false} ReadPacketIsFirstResult(
    cfg: Config, s: State, env: nat -> Option<Event>, choice: nat -> Choice, k: nat) returns (n: nat)
    ensures forall j: nat :: j < n ==> PassOf(cfg, s, env, choice, k, j).outcome.Again?
    ensures ReadPacket(cfg, s, env, choice, k) == PassOf(cfg, s, env, choice, k, n)
    decreases |s.input|
  {
    var p := PassOf(cfg, s, env, choice, k, 0);
    CallUnfolds(cfg, s, env, choice, k, p);
    if p.outcome.Again? {
      var m := ReadPacketIsFirstResult(cfg, p.state, env, choice, k + 1);
      PassOfNext(cfg, s, env, choice, k, m, p);
      n := m + 1;
      forall j: nat | j < n ensures PassOf(cfg, s, env, choice, k, j).outcome.Again? {
        if j > 0 { PassOfNext(cfg, s, env, choice, k, j - 1, p); }
      }
    } else {
      n := 0;
    }
  }

  /** A call sees what other goroutines did before its pass: closed before it began, it fails and reads nothing. */
  lemma CallSeesClose(cfg: Config, s: State, env: nat -> Option<Event>, choice: nat -> Choice, k: nat)
    requires env(k) == Some(CloseIt) && !Crashed(s) && !s.spawned
    ensures ReadPacket(cfg, s, env, choice, k) == Pass(s.(closed := true), Error)
  {
  }

  /** Spawned before it began, a call hands out the first deferred packet. */
  lemma CallSeesSpawn(cfg: Config, s: State, env: nat -> Option<Event>, choice: nat -> Choice, k: nat)
    requires env(k) == Some(LoginSpawn) && Open(s) && s.connected && !s.callback && !s.spawned && s.deferred != []
    ensures var p := ReadPacket(cfg, s, env, choice, k);
      p.outcome == Returned(s.deferred[0]) && p.state.spawned && p.state.deferred == s.deferred[1..]
  {
    var t := s.(spawned := true);
    assert Interfere(cfg, s, env(k)) == t;
    assert Iterate(cfg, t, choice(k)) == IterateSpawned(cfg, t, choice(k));
  }

  // ---- errors -----------------------------------------------------------------------------

  /** The stage before ChunkRadiusUpdated is the one that requests the chunk radius. */
  predicate RequestsOn(cfg: Config, pk: Packet) {
    if cfg.protocolID >= 776 then pk.ItemRegistry? else pk.StartGame?
  }

  /**
    Handling a packet ends the loop early exactly if it is a PlayStatus behind a complete handshake,
    which panics, or the packet whose handling sends a chunk radius request that cannot be written;
    then the connection is not connected and its world is not published.
   */
  lemma HandlingFailsIff(cfg: Config, s: State, pk: Packet, writeOk: bool)
    requires Busy(cfg, s)
    ensures var r := HandleOne(cfg, s, pk, writeOk); var next := Id(pk) == s.hs.expected[0];
      && (!r.ok <==> (s.connected && pk.PlayStatus?) || (next && RequestsOn(cfg, pk) && !writeOk))
      && (Crashed(r.state) <==> s.connected && pk.PlayStatus?)
      && (!r.ok && !Crashed(r.state) ==> !r.state.connected && r.state.hs.gameData.world == s.hs.gameData.world)
      && (r.state.log.requests == s.log.requests + if next && RequestsOn(cfg, pk) then 1 else 0)
  {
    if Id(pk) in s.hs.expected {
      match pk
      case ConnectionResponse(_, _) =>
      case StartGame(_) => if cfg.protocolID >= 776 {}
      case ItemRegistry(_) => assert cfg.protocolID >= 776;
      case ChunkRadiusUpdated(_) =>
      case PlayStatus(_) => if !s.connected { if s.callback {} }
      case _ =>
    }
  }

  // ---- closed connections -----------------------------------------------------------------

  lemma ClosedStep(cfg: Config, s: State, e: Event)
    requires Inv(cfg, s) && s.closed
    ensures var t := Step(cfg, s, e);
      && t.closed && t.connected == s.connected && t.spawned == s.spawned && t.hs == s.hs
      && (!s.spawned ==> t.input == s.input && t.log.returned == s.log.returned && t.deferred == s.deferred)
  {
    if e.MakePass? {
      PassEffects(cfg, s, e.ch);
    }
  }

  /**
    A closed connection is final: no continuation connects, spawns or changes its registers, and one
    that was never spawned reads and returns nothing more.
   */
  lemma {:induction false} ClosedIsFinal(cfg: Config, s: State, es: seq<Event>)
    requires Inv(cfg, s) && s.closed
    ensures var t := Run(cfg, s, es);
      && t.closed && t.connected == s.connected && t.spawned == s.spawned && t.hs == s.hs
      && (!s.spawned ==> t.input == s.input && t.log.returned == s.log.returned && t.deferred == s.deferred)
    decreases |es|
  {
    if es != [] {
      ClosedStep(cfg, s, es[0]);
      StepKeeps(cfg, s, es[0]);
      ClosedIsFinal(cfg, Step(cfg, s, es[0]), es[1..]);
    }
  }

  /** A pass that takes the closed case reads nothing and fails. */
  lemma ClosedPassFails(cfg: Config, s: State, ch: Choice)
    requires !Crashed(s) && s.closed && (!s.spawned || ch.takeClosed)
    ensures Iterate(cfg, s, ch) == Pass(s, Error)
  {
  }

  /** Closing takes effect at once and changes nothing else. */
  lemma CloseItCloses(cfg: Config, s: State)
    requires !Crashed(s)
    ensures Step(cfg, s, CloseIt) == s.(closed := true)
  {
  }

  /** A spawned connection that is closed goes on like an open one as long as `select` takes the spawned case. */
  lemma ClosedMayGoOn(cfg: Config, s: State, ch: Choice)
    requires s.spawned && !Crashed(s) && !ch.takeClosed
    ensures var p, q := Iterate(cfg, s, ch), Iterate(cfg, s.(closed := true), ch);
      q.outcome == p.outcome && q.state == p.state.(closed := true)
  {
    if s.deferred == [] {
      match Read(cfg, s.input, s.hs.shieldID, ch.readOk)
      case ReadPanic(_) =>
      case ReadFail(_) =>
      case ReadItem(_, _) =>
    }
  }
}
