/**
  `session.Session` in the source's own form: an object whose methods close and replace its
  server connection, flip its flags and clear its tracker. Every method is tied to a function of
  module `SessionMachine`, whose runs are the subject of module `SessionProofs`.

  What the client shows is computed from the packets actually written to it. `Do` lets anything a
  session can undergo happen to the object and records it, so that the object is always in the
  state that a run of the machine reaches and the theorems about runs speak of its fields.
 */
module Sessions {
  import opened Bytes
  import opened ServerConn
  import opened Tracker
  import opened SessionMachine
  import SessionProofs

  /** What a packet written to the client stands for; one in the server's own protocol, its conversion. */
  function MeaningOf(o: Options, w: Written<Packet>): seq<GamePacket> {
    match w
    case Latest(pk) => [pk]
    case AsReceived(pk) => Games(Converted(o.conn, pk))
  }

  function Meaning(o: Options, ws: seq<Written<Packet>>): seq<GamePacket> {
    if ws == [] then [] else Meaning(o, ws[..|ws| - 1]) + MeaningOf(o, ws[|ws| - 1])
  }

  lemma MeaningSnoc(o: Options, ws: seq<Written<Packet>>, w: Written<Packet>)
    ensures Meaning(o, ws + [w]) == Meaning(o, ws) + MeaningOf(o, w)
  {
    assert (ws + [w])[..|ws|] == ws;
  }

  lemma LatestSnoc(ws: seq<Written<Packet>>, gs: seq<GamePacket>, g: GamePacket)
    ensures ws + AllLatest(gs + [g]) == (ws + AllLatest(gs)) + [Latest(g)]
  {
  }

  lemma {:induction false} MeaningLatest(o: Options, ws: seq<Written<Packet>>, gs: seq<GamePacket>)
    ensures Meaning(o, ws + AllLatest(gs)) == Meaning(o, ws) + gs
    decreases |gs|
  {
    if gs == [] {
      assert ws + AllLatest(gs) == ws;
    } else {
      var init, g := gs[..|gs| - 1], gs[|gs| - 1];
      assert gs == init + [g];
      MeaningLatest(o, ws, init);
      LatestSnoc(ws, init, g);
      MeaningSnoc(o, ws + AllLatest(init), Latest(g));
      Regroup(Meaning(o, ws), init, [g]);
    }
  }

  /** What the client shows after more packets of the latest protocol. */
  lemma ShownAfter(o: Options, ws: seq<Written<Packet>>, gs: seq<GamePacket>)
    ensures ShowAll(o.local, EMPTY, Meaning(o, ws + AllLatest(gs))) ==
            ShowAll(o.local, ShowAll(o.local, EMPTY, Meaning(o, ws)), gs)
  {
    MeaningLatest(o, ws, gs);
    ShowAllAppend(o.local, EMPTY, Meaning(o, ws), gs);
  }

  /** Some iteration order exists for every set. */
  lemma {:induction false} SomeOrder<T>(s: set<T>) returns (xs: seq<T>)
    ensures Enumerates(xs, s)
  {
    if s == {} {
      xs := [];
    } else {
      var x :| x in s;
      var rest := SomeOrder(s - {x});
      xs := rest + [x];
      assert Elements(xs) == Elements(rest) + {x};
      assert x in rest ==> x in Elements(rest);
    }
  }

  lemma SomeClearOrder(s: Scene) returns (o: ClearOrder)
    ensures Orders(o, s)
  {
    var a := SomeOrder(s.effects);
    var b := SomeOrder(s.entities);
    var c := SomeOrder(s.bossBars);
    var d := SomeOrder(s.players);
    var e := SomeOrder(s.scoreboards);
    o := ClearOrder(a, b, c, d, e);
  }

  /** The iteration order only matters to the clear. */
  lemma OrderIsSpent(o: Options, s: Session, i: nat, out: Outcome, turn: Turn, order: ClearOrder)
    requires i < |s.links|
    ensures React(o, s, i, out, turn.(order := order)) == React(o, s, i, out, turn)
  {
    if out.Error? {
    } else if out.Returned? {
      var u := Take(s, i, out.item, turn.cancels);
      assert Process(o, u, i, out.item, turn.(order := order)) == Process(o, u, i, out.item, turn);
    }
  }

  class PlayerSession {
    const options: Options
    const tracker: Shadow
    const client: Client<Packet>

    var links: seq<Link>
    var reading: Option<nat>
    var started: bool
    var ended: bool
    var ctxDone: bool
    var once: bool
    var crashed: bool
    var inFallback: bool
    ghost var marks: seq<Mark>
    ghost var source: Option<nat>
    ghost var delivered: seq<Delivery>
    var attempts: seq<Attempt>     // the hooks fired for each transfer
    ghost var taken: seq<Taken>
    ghost var events: seq<SessionEvent>

    ghost predicate Valid() {
      client.runtimeID == options.local
    }

    ghost function View(): Session
      reads this, tracker, client
    {
      Session(links, Loop(reading, started, ended), ctxDone, once, crashed, Fallbacks(inFallback, marks),
              Stage(tracker.View(), ShowAll(options.local, EMPTY, Meaning(options, client.sent)), source, delivered), attempts, taken)
    }

    /** The object is where its events lead. */
    ghost predicate Recorded()
      reads this, tracker, client
    {
      Valid() && View() == Play(options, events)
    }

    constructor (options: Options, tracker: Shadow, client: Client<Packet>)
      requires tracker.View() == EMPTY && client.sent == [] && client.runtimeID == options.local
      ensures Recorded() && events == [] && this.options == options
    {
      this.options := options;
      this.tracker := tracker;
      this.client := client;
      links, reading, started, ended := [], None, false, false;
      ctxDone, once, crashed, inFallback := false, false, false, false;
      marks, source, delivered, attempts, taken, events := [], None, [], [], [], [];
    }

    /** Closes connection `i`; the failure hook of a transfer that was still connecting fires. */
    method CloseServer(i: nat)
      requires i < |links|
      modifies this`links, this`attempts
      ensures View() == CloseLink(old(View()), i)
    {
      var l := links[i];
      if CloseNotifies(l.conn) {
        attempts := Fail(attempts, l.owner);
      }
      links := links[i := l.(conn := Close(l.conn))];
    }

    method CloseCurrentServer()
      modifies this`links, this`attempts
      ensures View() == CloseCurrent(old(View()))
    {
      if links != [] {
        CloseServer(|links| - 1);
      }
    }

    method DialServer(transportOk: bool, input: seq<Byte>) returns (ok: bool)
      modifies this`links, this`attempts
      ensures Did(View(), ok) == Dial(old(View()), transportOk, input)
    {
      if ctxDone {
        return false;
      }
      CloseCurrentServer();
      if !transportOk {
        return false;
      }
      links := links + [Link(New(input, false), None)];
      ok := true;
    }

    method Transfer(c: TransferChoice) returns (ok: bool)
      modifies this`links, this`attempts
      ensures Did(View(), ok) == TransferContext(old(View()), c)
    {
      if c.cancelled {
        return false;
      }
      ok := DialServer(c.dialOk, c.input);
      if !ok || !c.connectOk {
        attempts := attempts + [Attempt(None, 1, 0)];
        return false;
      }
      var i := |links| - 1;
      links := links[i := Link(links[i].conn.(callback := true), Some(|attempts|))];
      attempts := attempts + [Attempt(Some(i), 0, 0)];
    }

    method CloseWithError()
      modifies this`links, this`attempts, this`once, this`ctxDone
      ensures View() == Shut(old(View()))
    {
      if once {
        return;
      }
      once := true;
      CloseCurrentServer();
      ctxDone := true;
    }

    method StartFallback(discoverOk: bool, c: TransferChoice) returns (ok: bool)
      modifies this`links, this`attempts, this`inFallback, this`marks
      ensures Did(View(), ok) == Fallback(old(View()), discoverOk, c)
    {
      if ctxDone {
        return false;
      }
      if inFallback {
        return false;
      }
      inFallback := true;
      marks := marks + [BeganFallback];
      if !discoverOk {
        return false;
      }
      ok := Transfer(c);
    }

    /** The clearing part of `sendGameData`. */
    method ClearClient() returns (ghost order: ClearOrder)
      requires Valid()
      modifies tracker, client
      ensures Orders(order, old(tracker.View()))
      ensures var st := old(View()).stage;
        View() == old(View()).(stage :=
          st.(scene := EMPTY, view := ShowAll(options.local, st.view, ClearPackets(options.local, order))))
    {
      order := tracker.ClearAll(client);
      ShownAfter(options, old(client.sent), ClearPackets(options.local, order));
    }

    /** The OnConnect function of a transfer, on a connection whose handshake has just completed. */
    method TransferConnected(i: nat, spawnOk: bool) returns (ghost order: ClearOrder)
      requires Valid() && i < |links|
      modifies this, tracker, client
      ensures Valid() && Orders(order, old(tracker.View()))
      ensures View() == Connected(options, old(View()), i, order, spawnOk)
    {
      order := ClearClient();
      source := Some(i);
      if !spawnOk {
        attempts := Fail(attempts, links[i].owner);
        return;
      }
      inFallback := false;
      marks := marks + [CompletedTransfer];
      attempts := Post(attempts, links[i].owner);
    }

    method CloseAndStop()
      modifies this`links, this`attempts, this`once, this`ctxDone, this`ended, this`reading
      ensures View() == EndLoop(old(View()))
    {
      CloseWithError();
      reading := None;
      ended := true;
    }

    method TrackEach(gs: seq<GamePacket>)
      modifies tracker
      ensures tracker.View() == TrackAll(old(tracker.View()), gs)
    {
      for k := 0 to |gs|
        invariant tracker.View() == TrackAll(old(tracker.View()), gs[..k])
      {
        tracker.HandlePacket(gs[k]);
        TrackAllAppend(old(tracker.View()), gs[..k], [gs[k]]);
        assert gs[..k + 1] == gs[..k] + [gs[k]];
      }
      assert gs[..|gs|] == gs;
    }

    /** The client gets the packet itself and shows what it converts to. */
    method WriteReceived(pk: Packet)
      modifies client
      ensures client.sent == old(client.sent) + [AsReceived(pk)]
      ensures var st := old(View()).stage;
        View() == old(View()).(stage := st.(view := ShowAll(options.local, st.view, Games(Converted(options.conn, pk)))))
    {
      ShowAllAppend(options.local, EMPTY, Meaning(options, client.sent), Games(Converted(options.conn, pk)));
      MeaningSnoc(options, client.sent, AsReceived(pk));
      client.WritePacket(AsReceived(pk));
    }

    /** Tracks what a decoded packet from connection `i` converts to, and writes the packet itself to the client. */
    method ForwardPacket(i: nat, pk: Packet, clientOk: bool)
      requires Valid()
      modifies this, tracker, client
      ensures Valid() && View() == Forward(options, old(View()), i, pk, clientOk)
    {
      var gs := Games(Converted(options.conn, pk));
      TrackEach(gs);
      delivered := delivered + Deliveries(i, gs);
      if !clientOk {
        CloseAndStop();
        return;
      }
      WriteReceived(pk);
    }

    method ProcessItem(i: nat, item: Item, turn: Turn)
      requires Valid()
      modifies this, tracker, client
      ensures Valid() && View() == Process(options, old(View()), i, item, turn)
    {
      if item.Decoded? && item.pk.Transfer? {
        var _ := Transfer(turn.next);
      } else if item.Decoded? && (item.pk.Latency? || item.pk.UpdateCache?) {
      } else if turn.cancels {
      } else if item.Decoded? && !item.pk.Flush? {
        ForwardPacket(i, item.pk, turn.clientOk);
      } else if !turn.clientOk {
        CloseAndStop();
      }
    }

    /** A read of connection `i` failed. */
    method ReadError(i: nat, turn: Turn)
      requires Valid() && i < |links|
      modifies this
      ensures Valid() && View() == ReadFailed(old(View()), i, turn)
    {
      if i != |links| - 1 {
        return;
      }
      CloseServer(i);
      var ok := StartFallback(turn.discoverOk, turn.next);
      if !ok {
        CloseAndStop();
      }
    }

    /** One pass of `ReadPacket` on connection `i`, with the callback it may run. */
    method ReadOnce(i: nat, turn: Turn) returns (out: Outcome, ghost order: ClearOrder)
      requires Valid() && i < |links|
      modifies this, tracker, client
      ensures Valid() && Orders(order, old(tracker.View()))
      ensures out == Iterate(options.conn, old(links[i].conn), turn.ch).outcome
      ensures View() == AfterPass(options, old(View()), i, turn.(order := order))
    {
      var before := links[i].conn;
      var p := Iterate(options.conn, before, turn.ch);
      out := p.outcome;
      links := links[i := links[i].(conn := p.state)];
      if Fires(before, p.state) {
        order := TransferConnected(i, turn.spawnOk);
      } else {
        order := SomeClearOrder(tracker.View());
      }
    }

    method StopReading()
      modifies this`reading
      ensures View() == Idle(old(View()))
    {
      reading := None;
    }

    method TakeItem(i: nat, item: Item, cancelled: bool)
      modifies this`reading, this`taken
      ensures View() == Take(old(View()), i, item, cancelled)
    {
      StopReading();
      taken := taken + [Taken(i, item, cancelled)];
    }

    method ReactTo(i: nat, out: Outcome, turn: Turn)
      requires Valid() && i < |links|
      modifies this, tracker, client
      ensures Valid() && View() == React(options, old(View()), i, out, turn)
    {
      match out
      case Again =>
      case Crash =>
        crashed := true;
      case Error =>
        StopReading();
        ReadError(i, turn);
      case Returned(item) =>
        TakeItem(i, item, turn.cancels);
        ProcessItem(i, item, turn);
    }

    /** One turn of the server loop over connection `i`, in whatever order a clear visits its sets. */
    method ServerTurn(i: nat, turn: Turn) returns (ghost order: ClearOrder)
      requires Valid() && i < |links|
      modifies this, tracker, client
      ensures Valid() && Orders(order, old(tracker.View()))
      ensures View() == TakeTurn(options, old(View()), i, turn.(order := order))
    {
      var out;
      out, order := ReadOnce(i, turn);
      assert i < |links|;
      ghost var mid := View();
      ReactTo(i, out, turn);
      OrderIsSpent(options, mid, i, out, turn, order);
    }

    /** `LoginContext` up to its dial, which starts the server loop if it succeeds. */
    method LoginServer(transportOk: bool, input: seq<Byte>)
      modifies this`links, this`attempts, this`reading, this`started, this`ended
      ensures View() == LoginDial(old(View()), transportOk, input)
    {
      var ok := DialServer(transportOk, input);
      reading, started, ended := None, true, !ok;
    }

    /** The end of `LoginContext`: the login connection is spawned if it has connected and is open. */
    method SpawnPlayer()
      modifies this`links, this`source
      ensures View() == if CanSpawnLogin(old(View())) then SpawnLink(old(View())) else old(View())
    {
      if links == [] || links[0].owner.Some? {
        return;
      }
      var c := links[0].conn;
      if c.connected && !c.spawned && !c.closed {
        links := links[0 := links[0].(conn := DoSpawn(c).state)];
        source := Some(0);
      }
    }

    /** The top of the server loop: end with the session, or pick the current connection. */
    method PickServer()
      requires links != []
      modifies this`links, this`attempts, this`once, this`ctxDone, this`ended, this`reading
      ensures View() == if old(ctxDone) then EndLoop(old(View()))
                        else old(View()).(loop := old(View()).loop.(reading := Some(|old(links)| - 1)))
    {
      if ctxDone {
        CloseAndStop();
      } else {
        reading := Some(|links| - 1);
      }
    }

    /** One step of anything that can happen to a session. */
    method Perform(e: SessionEvent) returns (ghost done: SessionEvent)
      requires Valid()
      modifies this, tracker, client
      ensures Valid() && View() == Next(options, old(View()), done)
      ensures e == done || (e.LoopPass? && done.LoopPass? && done.turn == e.turn.(order := done.turn.order))
    {
      done := e;
      if crashed {
        return;
      }
      match e
      case Login(ok, input) =>
        if !started { LoginServer(ok, input); }
      case SpawnLogin =>
        SpawnPlayer();
      case TransferTo(c) =>
        if started { var _ := Transfer(c); }
      case LoopTop =>
        if links != [] && !ended && reading.None? { PickServer(); }
      case LoopPass(turn) =>
        if !ended && reading.Some? && reading.value < |links| {
          ghost var order := ServerTurn(reading.value, turn);
          done := LoopPass(turn.(order := order));
        }
      case CloseServer(i) =>
        if i < |links| { CloseServer(i); }
      case CloseSession =>
        CloseWithError();
      case ClientGone =>
        ctxDone := true;
    }

    /** The same, recorded: the object stays in a state that the machine's runs reach. */
    method Do(e: SessionEvent) returns (ghost done: SessionEvent)
      requires Recorded()
      modifies this, tracker, client
      ensures Recorded() && events == old(events) + [done]
      ensures e == done || (e.LoopPass? && done.LoopPass? && done.turn == e.turn.(order := done.turn.order))
    {
      ghost var before := events;
      done := Perform(e);
      events := before + [done];
      SessionProofs.PlayLast(options, before, done);
    }

    /** So what holds of every run holds of the object: one open server, one report per transfer, isolation. */
    lemma RunsReach()
      requires Recorded()
      ensures forall i :: 0 <= i < |links| && (i != |links| - 1 || once) ==> links[i].conn.closed
      ensures forall t :: 0 <= t < |attempts| ==> attempts[t].failures + attempts[t].posts <= 1
      ensures var st := View().stage;
        && tracker.View() == TrackAll(EMPTY, SessionProofs.Showing(st))
        && (!once ==> ShowAll(options.local, EMPTY, Meaning(options, client.sent)) ==
                      ShowAll(options.local, Remnant(SessionProofs.LeftBefore(options, st)), SessionProofs.Showing(st)))
      ensures inFallback <==> marks != [] && marks[|marks| - 1] == BeganFallback
    {
      forall i: nat | i < |links| && (i != |links| - 1 || once) ensures links[i].conn.closed {
        SessionProofs.SingleOpenServer(options, events, i);
      }
      forall t: nat | t < |attempts| ensures attempts[t].failures + attempts[t].posts <= 1 {
        SessionProofs.TransferOutcomes(options, events, t);
      }
      SessionProofs.TransferIsolation(options, events);
      SessionProofs.BoundedFallback(options, events);
    }
  }
}
