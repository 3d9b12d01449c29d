/**
  From the connections to the client: what the server loop does with every item it takes.

  `GamesIn` and `Given` say which game packets an item stands for without reference to the machine,
  from the item, the processor's verdict and the protocol conversion alone. In every run the items
  taken from a connection are exactly those it has handed out, and the packets tracked for it are
  exactly those its uncancelled items stand for, in order.
 */
module SessionDelivery {
  import opened Bytes
  import opened ServerConn
  import opened Tracker
  import opened SessionMachine
  import opened SessionFrames
  import SessionProofs
  import SessionPanics

  /** Where the game packets of a list are, ascending. */
  function Positions(pks: seq<Packet>): (ks: seq<nat>)
    ensures forall j :: 0 <= j < |ks| ==> ks[j] < |pks| && pks[ks[j]].Game?
    ensures forall i, j :: 0 <= i < j < |ks| ==> ks[i] < ks[j]
    ensures forall k: nat :: k < |pks| && pks[k].Game? ==> k in ks
  {
    if pks == [] then [] else
    var n := |pks| - 1;
    Positions(pks[..n]) + if pks[n].Game? then [n] else []
  }

  /** The game packets of a list, in order. */
  function GamesIn(pks: seq<Packet>): (gs: seq<GamePacket>)
    ensures var ks := Positions(pks); |gs| == |ks| && forall j :: 0 <= j < |ks| ==> gs[j] == pks[ks[j]].game
  {
    var ks := Positions(pks);
    seq(|ks|, j requires 0 <= j < |ks| => pks[ks[j]].game)
  }

  /** Packets of the proxy's own protocol, which the client never sees. */
  predicate ForProxy(pk: Packet) {
    pk.Flush? || pk.Latency? || pk.Transfer? || pk.UpdateCache?
  }

  /** The packets of the latest protocol that a packet stands for. */
  function InLatest(cfg: Config, pk: Packet): seq<Packet> {
    if cfg.syncProtocol then cfg.convert(pk) else [pk]
  }

  /** The game packets the client is to be shown for a taken item. */
  function Given(o: Options, v: Taken): seq<GamePacket> {
    if v.cancelled || v.item.Raw? || ForProxy(v.item.pk) then [] else GamesIn(InLatest(o.conn, v.item.pk))
  }

  function TakenFrom(vs: seq<Taken>, i: nat): seq<Item> {
    if vs == [] then []
    else TakenFrom(vs[..|vs| - 1], i) + if vs[|vs| - 1].from == i then [vs[|vs| - 1].item] else []
  }

  function GivenFrom(o: Options, vs: seq<Taken>, i: nat): seq<GamePacket> {
    if vs == [] then []
    else GivenFrom(o, vs[..|vs| - 1], i) + if vs[|vs| - 1].from == i then Given(o, vs[|vs| - 1]) else []
  }

  // ---- what one item does -----------------------------------------------------------------

  lemma {:induction false} GamesSnoc(pks: seq<Packet>, pk: Packet)
    ensures Games(pks + [pk]) == Games(pks) + if pk.Game? then [pk.game] else []
    decreases |pks|
  {
    if pks == [] {
      assert (pks + [pk])[1..] == [];
    } else {
      assert (pks + [pk])[1..] == pks[1..] + [pk];
      GamesSnoc(pks[1..], pk);
    }
  }

  lemma GamesInSnoc(pks: seq<Packet>, pk: Packet)
    ensures GamesIn(pks + [pk]) == GamesIn(pks) + if pk.Game? then [pk.game] else []
  {
    var all := pks + [pk];
    assert all[..|pks|] == pks;
    assert Positions(all) == Positions(pks) + if pk.Game? then [|pks|] else [];
    assert forall j :: 0 <= j < |Positions(pks)| ==> all[Positions(pks)[j]] == pks[Positions(pks)[j]];
  }

  /** The machine's filter keeps exactly the game packets, in order. */
  lemma {:induction false} GamesAreGamesIn(pks: seq<Packet>)
    ensures Games(pks) == GamesIn(pks)
    decreases |pks|
  {
    if pks != [] {
      var init, pk := pks[..|pks| - 1], pks[|pks| - 1];
      assert pks == init + [pk];
      GamesAreGamesIn(init);
      GamesSnoc(init, pk);
      GamesInSnoc(init, pk);
    }
  }

  /** What the client's side becomes when the game packets `gs` of connection `i` are tracked and written. */
  function StageAfter(o: Options, st: Stage, i: nat, gs: seq<GamePacket>, written: bool): Stage {
    st.(scene := TrackAll(st.scene, gs), delivered := st.delivered + Deliveries(i, gs),
        view := if written then ShowAll(o.local, st.view, gs) else st.view)
  }

  /**
    Every item the loop takes: what it stands for is tracked and, if the write succeeds, shown; a
    Transfer packet is a transfer and nothing else; a failed write to the client ends the session
    and the loop; and everything else leaves the session as it was.
   */
  lemma ItemOutcome(o: Options, s: Session, i: nat, item: Item, turn: Turn)
    ensures var t := Process(o, s, i, item, turn); var gs := Given(o, Taken(i, item, turn.cancels));
      if item.Decoded? && item.pk.Transfer? then t == TransferContext(s, turn.next).session
      else
        var toClient := !turn.cancels && (item.Decoded? ==> !item.pk.Latency? && !item.pk.UpdateCache?);
        && t.stage == StageAfter(o, s.stage, i, gs, turn.clientOk)
        && (turn.clientOk || !toClient ==> t == s.(stage := t.stage))
        && (!turn.clientOk && toClient ==> t.once && t.loop.ended)
  {
    if item.Decoded? {
      GamesAreGamesIn(InLatest(o.conn, item.pk));
    }
    EndLoopCalm(s);
    var st := s.stage;
    assert TrackAll(st.scene, []) == st.scene && ShowAll(o.local, st.view, []) == st.view;
    assert st.delivered + Deliveries(i, []) == st.delivered;
    if item.Decoded? && item.pk.Transfer? {
    } else if item.Decoded? && (item.pk.Latency? || item.pk.UpdateCache?) {
    } else if turn.cancels {
    } else if item.Decoded? && !item.pk.Flush? {
      assert Converted(o.conn, item.pk) == InLatest(o.conn, item.pk);
      if turn.clientOk {
      } else if s.once {
      }
    } else if turn.clientOk {
    } else if s.once {
    }
  }

  lemma OneGame(g: GamePacket)
    ensures GamesIn([Game(g)]) == [g]
  {
    assert [Game(g)] == [] + [Game(g)];
    GamesInSnoc([], Game(g));
    assert GamesIn([]) == [];
  }

  lemma TrackOne(s: Scene, g: GamePacket)
    ensures TrackAll(s, [g]) == Track(s, g)
  {
    assert [g][1..] == [];
  }

  /** Without protocol conversion a game packet is tracked and shown as it is. */
  lemma GameIsTracked(o: Options, s: Session, i: nat, g: GamePacket, turn: Turn)
    requires !o.conn.syncProtocol && !turn.cancels
    ensures var t := Process(o, s, i, Decoded(Game(g)), turn);
      && t.stage.scene == Track(s.stage.scene, g)
      && t.stage.delivered == s.stage.delivered + [Delivery(i, g)]
      && t.stage.view == if turn.clientOk then Show(o.local, s.stage.view, g) else s.stage.view
  {
    ItemOutcome(o, s, i, Decoded(Game(g)), turn);
    OneGame(g);
    TrackOne(s.stage.scene, g);
    ShowOne(o.local, s.stage.view, g);
    assert Deliveries(i, [g]) == [Delivery(i, g)];
  }

  // ---- every run --------------------------------------------------------------------------

  ghost predicate AccountsFor(o: Options, s: Session, i: nat) {
    && TakenFrom(s.taken, i) == (if i < |s.links| then s.links[i].conn.log.returned else [])
    && SessionProofs.From(s.stage.delivered, i) == GivenFrom(o, s.taken, i)
  }

  ghost predicate Accounts(o: Options, s: Session) {
    forall i: nat :: AccountsFor(o, s, i)
  }

  lemma CalmAccounts(o: Options, s: Session, t: Session)
    requires Accounts(o, s) && SameLogs(s, t) && t.stage.delivered == s.stage.delivered
    ensures Accounts(o, t)
  {
    forall i: nat ensures AccountsFor(o, t, i) {
      assert AccountsFor(o, s, i);
    }
  }

  /** A pass hands out what it returns and nothing else. */
  lemma PassHandsOut(cfg: Config, s: State, ch: Choice)
    ensures var p := Iterate(cfg, s, ch);
      p.state.log.returned == s.log.returned + if p.outcome.Returned? then [p.outcome.item] else []
  {
    if Crashed(s) {
    } else if s.closed && (!s.spawned || ch.takeClosed) {
    } else if s.spawned {
      if s.deferred == [] {
        match Read(cfg, s.input, s.hs.shieldID, ch.readOk)
        case ReadPanic(_) =>
        case ReadFail(_) =>
        case ReadItem(_, _) =>
      }
    } else {
      match Read(cfg, s.input, s.hs.shieldID, ch.readOk)
      case ReadPanic(_) =>
      case ReadFail(_) =>
      case ReadItem(item, rest) =>
        match item
        case Raw(_) =>
        case Decoded(pk) => HandleAllFrame(cfg, Arrived(s, item, rest), Converted(cfg, pk), ch.writeOk);
    }
  }

  lemma TakenSnoc(o: Options, vs: seq<Taken>, v: Taken, i: nat)
    ensures TakenFrom(vs + [v], i) == TakenFrom(vs, i) + if v.from == i then [v.item] else []
    ensures GivenFrom(o, vs + [v], i) == GivenFrom(o, vs, i) + if v.from == i then Given(o, v) else []
  {
    assert (vs + [v])[..|vs|] == vs;
  }

  /** Delivering what a taken item stands for keeps the accounts. */
  lemma DeliveryAccounts(o: Options, s: Session, t: Session, v: Taken)
    requires Accounts(o, s) && v.from < |s.links| == |t.links|
    requires t.taken == s.taken + [v]
    requires t.stage.delivered == s.stage.delivered + Deliveries(v.from, Given(o, v))
    requires t.links[v.from].conn.log.returned == s.links[v.from].conn.log.returned + [v.item]
    requires forall j :: 0 <= j < |s.links| && j != v.from ==> t.links[j].conn.log.returned == s.links[j].conn.log.returned
    ensures Accounts(o, t)
  {
    forall i: nat ensures AccountsFor(o, t, i) {
      assert AccountsFor(o, s, i);
      TakenSnoc(o, s.taken, v, i);
      if i == v.from {
        SessionProofs.FromAppend(s.stage.delivered, i, Given(o, v));
      } else {
        SessionProofs.FromOther(s.stage.delivered, i, v.from, Given(o, v));
      }
    }
  }

  /** A taken item delivers what it stands for, whatever kind it is. */
  lemma ProcessDelivers(o: Options, s: Session, i: nat, item: Item, turn: Turn)
    ensures Process(o, s, i, item, turn).stage.delivered ==
            s.stage.delivered + Deliveries(i, Given(o, Taken(i, item, turn.cancels)))
  {
    ItemOutcome(o, s, i, item, turn);
    if item.Decoded? && item.pk.Transfer? {
      TransferCalm(s, turn.next);
      assert s.stage.delivered + Deliveries(i, []) == s.stage.delivered;
    }
  }

  lemma ReturnedAccounts(o: Options, s: Session, u: Session, i: nat, item: Item, turn: Turn)
    requires Accounts(o, s) && i < |s.links| == |u.links|
    requires u.taken == s.taken && u.stage.delivered == s.stage.delivered
    requires u.links[i].conn.log.returned == s.links[i].conn.log.returned + [item]
    requires forall j :: 0 <= j < |s.links| && j != i ==> u.links[j] == s.links[j]
    ensures Accounts(o, Process(o, Take(u, i, item, turn.cancels), i, item, turn))
  {
    var v := Taken(i, item, turn.cancels);
    var w := Take(u, i, item, turn.cancels);
    var given := w.(stage := w.stage.(delivered := w.stage.delivered + Deliveries(i, Given(o, v))));
    DeliveryAccounts(o, s, given, v);
    ProcessCalm(o, w, i, item, turn);
    ProcessDelivers(o, w, i, item, turn);
    CalmAccounts(o, given, Process(o, w, i, item, turn));
  }

  lemma TurnAccounts(o: Options, s: Session, i: nat, turn: Turn)
    requires Accounts(o, s) && i < |s.links|
    ensures Accounts(o, TakeTurn(o, s, i, turn))
  {
    if Orders(turn.order, s.stage.scene) {
      var p := Iterate(o.conn, s.links[i].conn, turn.ch);
      var u := AfterPass(o, s, i, turn);
      PassHandsOut(o.conn, s.links[i].conn, turn.ch);
      AfterPassLinks(o, s, i, turn);
      var t := TakeTurn(o, s, i, turn);
      if p.outcome.Crash? {
        CalmAccounts(o, s, t);
      } else if p.outcome.Returned? {
        ReturnedAccounts(o, s, u, i, p.outcome.item, turn);
      } else {
        ReactCalm(o, u, i, p.outcome, turn);
        if p.outcome.Error? { ReadFailedCalm(Idle(u), i, turn); }
        CalmAccounts(o, s, t);
      }
    }
  }

  lemma StepAccounts(o: Options, s: Session, e: SessionEvent)
    requires Accounts(o, s) && (s.links != [] && !s.crashed ==> !Crashed(s.links[0].conn))
    ensures Accounts(o, Next(o, s, e))
  {
    if s.crashed {
    } else if !e.LoopPass? {
      OtherCalm(o, s, e);
      CalmAccounts(o, s, Next(o, s, e));
    } else if !s.loop.ended && s.loop.reading.Some? && s.loop.reading.value < |s.links| {
      TurnAccounts(o, s, s.loop.reading.value, e.turn);
    }
  }

  lemma {:induction false} RunAccounts(o: Options, es: seq<SessionEvent>)
    ensures Accounts(o, Play(o, es))
  {
    if es == [] {
      assert forall i: nat :: AccountsFor(o, FRESH, i);
    } else {
      var init, e := es[..|es| - 1], es[|es| - 1];
      RunAccounts(o, init);
      SessionPanics.RunExplains(o, init);
      StepAccounts(o, Play(o, init), e);
    }
  }

  /**
    In every run the items the loop has taken from a connection are those that connection has handed
    out, and the packets delivered from it are those its uncancelled items stand for, in order.
   */
  lemma DeliveredIsWhatWasTaken(o: Options, es: seq<SessionEvent>, i: nat)
    requires i < |Play(o, es).links|
    ensures var s := Play(o, es);
      && TakenFrom(s.taken, i) == s.links[i].conn.log.returned
      && SessionProofs.From(s.stage.delivered, i) == GivenFrom(o, s.taken, i)
  {
    RunAccounts(o, es);
    assert AccountsFor(o, Play(o, es), i);
  }

  /**
    So in every run the tracker is the fold of what the items of the connection spawned last stand
    for, of all of them and of nothing else.
   */
  lemma TrackerIsWhatWasTaken(o: Options, es: seq<SessionEvent>, i: nat)
    requires Play(o, es).stage.source == Some(i)
    ensures var s := Play(o, es); s.stage.scene == TrackAll(EMPTY, GivenFrom(o, s.taken, i))
  {
    RunAccounts(o, es);
    SessionProofs.TransferIsolation(o, es);
    assert AccountsFor(o, Play(o, es), i);
  }
}
