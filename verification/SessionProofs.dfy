/**
  What every run of a session keeps: at most one open server connection, exactly one outcome per
  transfer, a bounded number of fallbacks, and isolation of the client from earlier servers.
 */
module SessionProofs {
  import opened Bytes
  import opened ServerConn
  import opened Tracker
  import opened SessionMachine
  import Handshake

  // ---- connections ------------------------------------------------------------------------

  ghost predicate Sound(o: Options, s: Session) {
    forall i :: 0 <= i < |s.links| ==> Handshake.Inv(o.conn, s.links[i].conn)
  }

  /** Only the newest connection may be open, and none once the session is closed. */
  ghost predicate SingleOpen(s: Session) {
    && (forall i :: 0 <= i < |s.links| - 1 ==> s.links[i].conn.closed)
    && (s.once ==> s.ctxDone && forall i :: 0 <= i < |s.links| ==> s.links[i].conn.closed)
  }

  ghost predicate Wired(s: Session) {
    && (forall i :: 0 <= i < |s.links| ==> (s.links[i].conn.callback <==> s.links[i].owner.Some?))
    && (s.loop.reading.Some? ==> s.loop.reading.value < |s.links|)
    && (s.links != [] ==> s.loop.started)
  }

  // ---- transfer outcomes ------------------------------------------------------------------

  predicate Settled(c: State) {
    c.connected || c.closed
  }

  /** An attempt without a callback has failed; one with a callback reports exactly once, when its connection settles. */
  ghost predicate AttemptOk(s: Session, t: nat)
    requires t < |s.attempts|
  {
    var a := s.attempts[t];
    match a.link
    case None => a.failures == 1 && a.posts == 0
    case Some(i) =>
      && i < |s.links| && s.links[i].owner == Some(t)
      && a.failures + a.posts == if Settled(s.links[i].conn) then 1 else 0
  }

  ghost predicate OwnerOk(s: Session, i: nat)
    requires i < |s.links|
  {
    s.links[i].owner.Some? ==>
      s.links[i].owner.value < |s.attempts| && s.attempts[s.links[i].owner.value].link == Some(i)
  }

  ghost predicate Outcomes(s: Session) {
    && (forall t: nat :: t < |s.attempts| ==> AttemptOk(s, t))
    && (forall i: nat :: i < |s.links| ==> OwnerOk(s, i))
  }

  // ---- fallbacks --------------------------------------------------------------------------

  function Count(marks: seq<Mark>, m: Mark): nat {
    if marks == [] then 0
    else Count(marks[..|marks| - 1], m) + if marks[|marks| - 1] == m then 1 else 0
  }

  ghost predicate Bounded(f: Fallbacks) {
    && (f.active <==> f.marks != [] && f.marks[|f.marks| - 1] == BeganFallback)
    && Count(f.marks, BeganFallback) <= Count(f.marks, CompletedTransfer) + (if f.active then 1 else 0)
  }

  lemma CountSnoc(marks: seq<Mark>, m: Mark, n: Mark)
    ensures Count(marks + [m], n) == Count(marks, n) + if m == n then 1 else 0
  {
    assert (marks + [m])[..|marks|] == marks;
  }

  // ---- isolation --------------------------------------------------------------------------

  /** The tracked packets that came from connection `k`, in order. */
  function From(ds: seq<Delivery>, k: nat): seq<GamePacket> {
    if ds == [] then []
    else From(ds[..|ds| - 1], k) + if ds[|ds| - 1].from == k then [ds[|ds| - 1].pk] else []
  }

  /**
    The effects that the clears before connection `k` have left on the client: what each earlier
    connection showed it, on top of what it started with, and the tracker did not know.
   */
  function Left(o: Options, ds: seq<Delivery>, k: nat): set<int> {
    if k == 0 then {} else
    var gs := From(ds, k - 1);
    ShowAll(o.local, Remnant(Left(o, ds, k - 1)), gs).effects - TrackAll(EMPTY, gs).effects
  }

  /** What the client was shown by the connection spawned last. */
  function Showing(st: Stage): seq<GamePacket> {
    if st.source.None? then [] else From(st.delivered, st.source.value)
  }

  function LeftBefore(o: Options, st: Stage): set<int> {
    if st.source.None? then {} else Left(o, st.delivered, st.source.value)
  }

  /** No connection after the source is spawned, and the loop never goes back behind it. */
  ghost predicate SourceIsLatest(s: Session) {
    match s.stage.source
    case None =>
      s.stage.delivered == [] && forall i :: 0 <= i < |s.links| ==> !s.links[i].conn.spawned
    case Some(k) =>
      && k < |s.links| && s.links[k].conn.spawned
      && (forall i :: k < i < |s.links| ==> !s.links[i].conn.spawned)
      && (s.loop.reading.Some? ==> k <= s.loop.reading.value)
      && (forall d :: 0 <= d < |s.stage.delivered| ==> s.stage.delivered[d].from <= k)
  }

  ghost predicate Isolated(o: Options, s: Session) {
    && SourceIsLatest(s)
    && s.stage.scene == TrackAll(EMPTY, Showing(s.stage))
    && (!s.once ==> s.stage.view == ShowAll(o.local, Remnant(LeftBefore(o, s.stage)), Showing(s.stage)))
  }

  ghost predicate Core(o: Options, s: Session) {
    SingleOpen(s) && Wired(s) && Outcomes(s) && Bounded(s.fall) && Isolated(o, s)
  }

  ghost predicate Inv(o: Options, s: Session) {
    Sound(o, s) && Core(o, s)
  }

  lemma InitialInv(o: Options)
    ensures Inv(o, FRESH)
  {
  }

  // ---- frames -----------------------------------------------------------------------------

  /** Replacing one connection by another of the same owner, which may settle but not unsettle. */
  ghost predicate Replaced(s: Session, s': Session, i: nat) {
    && i < |s.links| && |s'.links| == |s.links|
    && (forall j :: 0 <= j < |s.links| && j != i ==> s'.links[j] == s.links[j])
    && s'.links[i].owner == s.links[i].owner && s'.links[i].conn.callback == s.links[i].conn.callback
    && (Settled(s.links[i].conn) ==> Settled(s'.links[i].conn))
  }

  /** The hooks that such a change must fire: one, for the owner, exactly when it settles. */
  ghost predicate Reported(s: Session, s': Session, i: nat)
    requires i < |s.links| && |s'.links| == |s.links|
  {
    if s.links[i].owner.Some? && !Settled(s.links[i].conn) && Settled(s'.links[i].conn)
    then s'.attempts == Fail(s.attempts, s.links[i].owner) || s'.attempts == Post(s.attempts, s.links[i].owner)
    else s'.attempts == s.attempts
  }

  lemma ReplacedKeepsOutcomes(s: Session, s': Session, i: nat)
    requires Outcomes(s) && Replaced(s, s', i) && Reported(s, s', i)
    ensures Outcomes(s')
  {
    assert OwnerOk(s, i);
    forall t: nat | t < |s'.attempts| ensures AttemptOk(s', t) {
      assert AttemptOk(s, t);
    }
    forall j: nat | j < |s'.links| ensures OwnerOk(s', j) {
      assert OwnerOk(s, j);
    }
  }

  /** Isolation depends on the connections only through which of them are spawned. */
  lemma IsolationFrame(o: Options, s: Session, s': Session)
    requires Isolated(o, s) && s'.stage == s.stage && (s.once ==> s'.once)
    requires s'.loop.reading == s.loop.reading || s'.loop.reading.None?
    requires |s.links| <= |s'.links|
    requires forall i :: 0 <= i < |s.links| ==> s'.links[i].conn.spawned == s.links[i].conn.spawned
    requires forall i :: |s.links| <= i < |s'.links| ==> !s'.links[i].conn.spawned
    ensures Isolated(o, s')
  {
  }

  lemma OutcomesFrame(s: Session, s': Session)
    requires Outcomes(s) && s'.links == s.links && s'.attempts == s.attempts
    ensures Outcomes(s')
  {
    forall t: nat | t < |s'.attempts| ensures AttemptOk(s', t) { assert AttemptOk(s, t); }
    forall j: nat | j < |s'.links| ensures OwnerOk(s', j) { assert OwnerOk(s, j); }
  }

  // ---- closing ----------------------------------------------------------------------------

  lemma CloseLinkCore(o: Options, s: Session, i: nat)
    requires Core(o, s) && i < |s.links|
    ensures Core(o, CloseLink(s, i))
    ensures CloseLink(s, i).links[i].conn.closed
  {
    var t := CloseLink(s, i);
    ReplacedKeepsOutcomes(s, t, i);
    IsolationFrame(o, s, t);
  }

  lemma CloseLinkSound(o: Options, s: Session, i: nat)
    requires Sound(o, s) && i < |s.links|
    ensures Sound(o, CloseLink(s, i))
  {
    Handshake.CloseKeeps(o.conn, s.links[i].conn);
  }

  lemma CloseCurrentCore(o: Options, s: Session)
    requires Core(o, s)
    ensures Core(o, CloseCurrent(s))
    ensures forall i :: 0 <= i < |CloseCurrent(s).links| ==> CloseCurrent(s).links[i].conn.closed
  {
    if s.links != [] {
      CloseLinkCore(o, s, |s.links| - 1);
    }
  }

  lemma CloseCurrentSound(o: Options, s: Session)
    requires Sound(o, s)
    ensures Sound(o, CloseCurrent(s))
  {
    if s.links != [] {
      CloseLinkSound(o, s, |s.links| - 1);
    }
  }

  lemma ShutCore(o: Options, s: Session)
    requires Core(o, s)
    ensures Core(o, Shut(s)) && Shut(s).once
  {
    if !s.once {
      CloseCurrentCore(o, s);
      OutcomesFrame(CloseCurrent(s), Shut(s));
      IsolationFrame(o, CloseCurrent(s), Shut(s));
    }
  }

  lemma EndLoopCore(o: Options, s: Session)
    requires Core(o, s)
    ensures Core(o, EndLoop(s)) && EndLoop(s).once && EndLoop(s).loop.ended
  {
    ShutCore(o, s);
    OutcomesFrame(Shut(s), EndLoop(s));
    IsolationFrame(o, Shut(s), EndLoop(s));
  }

  lemma ShutSound(o: Options, s: Session)
    requires Sound(o, s)
    ensures Sound(o, Shut(s)) && Sound(o, EndLoop(s))
  {
    CloseCurrentSound(o, s);
  }

  // ---- dialing, transferring, falling back ------------------------------------------------

  lemma AdoptOutcomes(s: Session, input: seq<Byte>)
    requires Outcomes(s)
    ensures Outcomes(Adopt(s, input))
  {
    var t := Adopt(s, input);
    assert forall i :: 0 <= i < |s.links| ==> t.links[i] == s.links[i];
    forall a: nat | a < |t.attempts| ensures AttemptOk(t, a) { assert AttemptOk(s, a); }
    forall j: nat | j < |t.links| ensures OwnerOk(t, j) {
      if j < |s.links| { assert OwnerOk(s, j); }
    }
  }

  lemma AdoptCore(o: Options, s: Session, input: seq<Byte>)
    requires Core(o, s) && !s.once && s.loop.started
    requires forall i :: 0 <= i < |s.links| ==> s.links[i].conn.closed
    ensures Core(o, Adopt(s, input))
  {
    var t := Adopt(s, input);
    assert forall i :: 0 <= i < |s.links| ==> t.links[i] == s.links[i];
    AdoptOutcomes(s, input);
    IsolationFrame(o, s, t);
  }

  lemma AdoptSound(o: Options, s: Session, input: seq<Byte>)
    requires Sound(o, s)
    ensures Sound(o, Adopt(s, input))
  {
    Handshake.InitialInv(o.conn, input, false);
  }

  lemma DialCore(o: Options, s: Session, ok: bool, input: seq<Byte>)
    requires Core(o, s) && s.loop.started
    ensures var d := Dial(s, ok, input);
      && Core(o, d.session) && d.session.loop == s.loop && d.session.fall == s.fall && d.session.stage == s.stage
      && (d.ok ==> |d.session.links| == |s.links| + 1 && d.session.links[|s.links|] == Link(New(input, false), None))
      && (!d.ok ==> |d.session.links| == |s.links|)
      && (s.ctxDone ==> d == Did(s, false))
  {
    if !s.ctxDone {
      CloseCurrentCore(o, s);
      if ok {
        AdoptCore(o, CloseCurrent(s), input);
      }
    }
  }

  lemma DialSound(o: Options, s: Session, ok: bool, input: seq<Byte>)
    requires Sound(o, s)
    ensures Sound(o, Dial(s, ok, input).session)
  {
    CloseCurrentSound(o, s);
    AdoptSound(o, CloseCurrent(s), input);
  }

  lemma RegisterOutcomes(s: Session, input: seq<Byte>)
    requires Outcomes(s) && s.links != [] && s.links[|s.links| - 1] == Link(New(input, false), None)
    ensures Outcomes(Register(s))
  {
    var t := Register(s);
    var i := |s.links| - 1;
    assert forall j :: 0 <= j < i ==> t.links[j] == s.links[j];
    forall a: nat | a < |t.attempts| ensures AttemptOk(t, a) {
      if a < |s.attempts| {
        assert AttemptOk(s, a);
      }
    }
    forall j: nat | j < |t.links| ensures OwnerOk(t, j) {
      if j < i { assert OwnerOk(s, j); }
    }
  }

  lemma RegisterLinks(s: Session, input: seq<Byte>)
    requires SingleOpen(s) && Wired(s)
    requires s.links != [] && s.links[|s.links| - 1] == Link(New(input, false), None)
    ensures var t := Register(s);
      && SingleOpen(t) && Wired(t) && |t.links| == |s.links|
      && forall j :: 0 <= j < |s.links| ==> t.links[j].conn.spawned == s.links[j].conn.spawned
  {
    var t, i := Register(s), |s.links| - 1;
    assert t.links[i] == Link(New(input, true), Some(|s.attempts|));
    assert forall j :: 0 <= j < i ==> t.links[j] == s.links[j];
  }

  lemma RegisterCore(o: Options, s: Session, input: seq<Byte>)
    requires Core(o, s) && s.links != [] && s.links[|s.links| - 1] == Link(New(input, false), None)
    ensures Core(o, Register(s))
  {
    RegisterOutcomes(s, input);
    RegisterLinks(s, input);
    IsolationFrame(o, s, Register(s));
  }

  lemma RegisterSound(o: Options, s: Session, input: seq<Byte>)
    requires Sound(o, s) && s.links != [] && s.links[|s.links| - 1] == Link(New(input, false), None)
    ensures Sound(o, Register(s))
  {
    var t := Register(s);
    var i := |s.links| - 1;
    assert t.links[i].conn == New(input, true);
    assert forall j :: 0 <= j < i ==> t.links[j] == s.links[j];
    Handshake.InitialInv(o.conn, input, true);
  }

  lemma RefuseCore(o: Options, s: Session)
    requires Core(o, s)
    ensures Core(o, Refuse(s))
  {
    var t := Refuse(s);
    forall a: nat | a < |t.attempts| ensures AttemptOk(t, a) {
      if a < |s.attempts| {
        assert AttemptOk(s, a);
      }
    }
    forall j: nat | j < |t.links| ensures OwnerOk(t, j) { assert OwnerOk(s, j); }
    IsolationFrame(o, s, t);
  }

  lemma TransferCore(o: Options, s: Session, c: TransferChoice)
    requires Core(o, s) && s.loop.started
    ensures var d := TransferContext(s, c);
      && Core(o, d.session) && d.session.loop == s.loop && d.session.fall == s.fall && d.session.stage == s.stage
      && (s.ctxDone ==> d.session.links == s.links && !d.ok)
  {
    if !c.cancelled {
      DialCore(o, s, c.dialOk, c.input);
      var d := Dial(s, c.dialOk, c.input);
      if d.ok && c.connectOk {
        RegisterCore(o, d.session, c.input);
      } else {
        RefuseCore(o, d.session);
      }
    }
  }

  lemma TransferSound(o: Options, s: Session, c: TransferChoice)
    requires Sound(o, s)
    ensures Sound(o, TransferContext(s, c).session)
  {
    if !c.cancelled {
      DialSound(o, s, c.dialOk, c.input);
      var d := Dial(s, c.dialOk, c.input);
      if d.ok && c.connectOk {
        assert d.session.links[|d.session.links| - 1] == Link(New(c.input, false), None);
        RegisterSound(o, d.session, c.input);
      }
    }
  }

  lemma BeginCore(o: Options, s: Session)
    requires Core(o, s) && !s.fall.active
    ensures Core(o, Begin(s))
  {
    CountSnoc(s.fall.marks, BeganFallback, BeganFallback);
    CountSnoc(s.fall.marks, BeganFallback, CompletedTransfer);
    OutcomesFrame(s, Begin(s));
    IsolationFrame(o, s, Begin(s));
  }

  lemma FallbackCore(o: Options, s: Session, discoverOk: bool, c: TransferChoice)
    requires Core(o, s) && s.loop.started
    ensures Core(o, Fallback(s, discoverOk, c).session)
    ensures s.fall.active || s.ctxDone ==> Fallback(s, discoverOk, c) == Did(s, false)
  {
    if !s.ctxDone && !s.fall.active {
      BeginCore(o, s);
      if discoverOk {
        TransferCore(o, Begin(s), c);
      }
    }
  }

  lemma FallbackSound(o: Options, s: Session, discoverOk: bool, c: TransferChoice)
    requires Sound(o, s)
    ensures Sound(o, Fallback(s, discoverOk, c).session)
  {
    assert Sound(o, Begin(s));
    TransferSound(o, Begin(s), c);
  }

  // ---- one turn of the server loop --------------------------------------------------------

  lemma {:induction false} FromNone(ds: seq<Delivery>, k: nat)
    requires forall d :: 0 <= d < |ds| ==> ds[d].from != k
    ensures From(ds, k) == []
  {
    if ds != [] {
      FromNone(ds[..|ds| - 1], k);
    }
  }

  lemma {:induction false} FromAppend(ds: seq<Delivery>, k: nat, gs: seq<GamePacket>)
    ensures From(ds + Deliveries(k, gs), k) == From(ds, k) + gs
    decreases |gs|
  {
    var all := ds + Deliveries(k, gs);
    if gs == [] {
      assert all == ds;
    } else {
      var init := gs[..|gs| - 1];
      FromAppend(ds, k, init);
      var last := gs[|gs| - 1];
      assert all == (ds + Deliveries(k, init)) + [Delivery(k, last)];
      assert all[..|all| - 1] == ds + Deliveries(k, init);
      assert (From(ds, k) + init) + [last] == From(ds, k) + gs;
    }
  }

  lemma {:induction false} FromOther(ds: seq<Delivery>, j: nat, k: nat, gs: seq<GamePacket>)
    requires j != k
    ensures From(ds + Deliveries(k, gs), j) == From(ds, j)
    decreases |gs|
  {
    var all := ds + Deliveries(k, gs);
    if gs == [] {
      assert all == ds;
    } else {
      var init := gs[..|gs| - 1];
      FromOther(ds, j, k, init);
      assert all == (ds + Deliveries(k, init)) + [Delivery(k, gs[|gs| - 1])];
      assert all[..|all| - 1] == ds + Deliveries(k, init);
    }
  }

  /** What is left before a connection depends on the earlier connections only. */
  lemma {:induction false} LeftFrame(o: Options, ds: seq<Delivery>, es: seq<Delivery>, k: nat)
    requires forall j: nat :: j < k ==> From(es, j) == From(ds, j)
    ensures Left(o, es, k) == Left(o, ds, k)
  {
    if k > 0 {
      LeftFrame(o, ds, es, k - 1);
      assert From(es, k - 1) == From(ds, k - 1);
    }
  }

  /** A connection that delivered nothing leaves what it found. */
  lemma {:induction false} LeftIdle(o: Options, ds: seq<Delivery>, k: nat, i: nat)
    requires k <= i && forall d :: 0 <= d < |ds| ==> ds[d].from < k
    ensures Left(o, ds, i) == Left(o, ds, k)
    decreases i - k
  {
    if k < i {
      LeftIdle(o, ds, k, i - 1);
      FromNone(ds, i - 1);
    }
  }

  /** A clear leaves on the client what its source connection and the ones before it have lost. */
  lemma ClearLeaves(o: Options, st: Stage, i: nat, order: ClearOrder)
    requires Orders(order, st.scene) && st.scene == TrackAll(EMPTY, Showing(st))
    requires st.view == ShowAll(o.local, Remnant(LeftBefore(o, st)), Showing(st))
    requires st.source.None? ==> st.delivered == []
    requires st.source.Some? ==> st.source.value < i
    requires st.source.Some? ==> forall d :: 0 <= d < |st.delivered| ==> st.delivered[d].from <= st.source.value
    ensures ShowAll(o.local, st.view, ClearPackets(o.local, order)) == Remnant(Left(o, st.delivered, i))
  {
    var left := LeftBefore(o, st);
    ClearRemoves(o.local, st.scene, st.view, order);
    assert CoversRest(EMPTY, Remnant(left));
    RestIsCovered(o.local, EMPTY, Remnant(left), Showing(st));
    match st.source
    case None => LeftIdle(o, st.delivered, 0, i);
    case Some(k) => LeftIdle(o, st.delivered, k + 1, i);
  }

  /** A completed handshake moves the stage to connection `i`, which has delivered nothing yet. */
  lemma ConnectedIsolates(o: Options, s: Session, t: Session, i: nat, order: ClearOrder)
    requires Isolated(o, s) && SingleOpen(s) && i < |s.links| && s.loop.reading == Some(i)
    requires !s.links[i].conn.closed && !s.links[i].conn.spawned && Orders(order, s.stage.scene)
    requires |t.links| == |s.links| && t.loop == s.loop && t.once == s.once && t.links[i].conn.spawned
    requires forall j :: 0 <= j < |s.links| && j != i ==> t.links[j] == s.links[j]
    requires t.stage == Stage(EMPTY, ShowAll(o.local, s.stage.view, ClearPackets(o.local, order)), Some(i), s.stage.delivered)
    ensures Isolated(o, t)
  {
    assert i == |s.links| - 1;
    FromNone(s.stage.delivered, i);
    if !s.once {
      ClearLeaves(o, s.stage, i, order);
    }
  }

  lemma QuietPassCore(o: Options, s: Session, i: nat, p: Pass)
    requires Core(o, s) && i < |s.links| && Handshake.PassEffect(s.links[i].conn, p)
    requires !Fires(s.links[i].conn, p.state)
    ensures Core(o, Advance(s, i, p.state))
  {
    var t := Advance(s, i, p.state);
    assert Replaced(s, t, i);
    IsolationFrame(o, s, t);
    ReplacedKeepsOutcomes(s, t, i);
  }

  /** A completed handshake reports its attempt once, as a completion or as a failure. */
  lemma ConnectedOutcomes(o: Options, s: Session, i: nat, p: Pass, turn: Turn)
    requires Wired(s) && Outcomes(s) && i < |s.links| && Handshake.PassEffect(s.links[i].conn, p)
    requires Fires(s.links[i].conn, p.state)
    ensures Outcomes(Connected(o, Advance(s, i, p.state), i, turn.order, turn.spawnOk))
  {
    var t := Connected(o, Advance(s, i, p.state), i, turn.order, turn.spawnOk);
    assert Replaced(s, t, i);
    if turn.spawnOk {
      assert t.attempts == Post(s.attempts, s.links[i].owner);
    } else {
      assert t.attempts == Fail(s.attempts, s.links[i].owner);
    }
    ReplacedKeepsOutcomes(s, t, i);
  }

  lemma ConnectedCore(o: Options, s: Session, i: nat, p: Pass, turn: Turn)
    requires Core(o, s) && s.loop.reading == Some(i) && Orders(turn.order, s.stage.scene)
    requires i < |s.links| && Handshake.PassEffect(s.links[i].conn, p)
    requires s.links[i].conn.spawned ==> s.links[i].conn.connected
    requires Fires(s.links[i].conn, p.state)
    ensures Core(o, Connected(o, Advance(s, i, p.state), i, turn.order, turn.spawnOk))
  {
    var t := Connected(o, Advance(s, i, p.state), i, turn.order, turn.spawnOk);
    ConnectedOutcomes(o, s, i, p, turn);
    CountSnoc(s.fall.marks, CompletedTransfer, BeganFallback);
    CountSnoc(s.fall.marks, CompletedTransfer, CompletedTransfer);
    ConnectedIsolates(o, s, t, i, turn.order);
  }

  lemma AfterPassCore(o: Options, s: Session, i: nat, turn: Turn)
    requires Core(o, s) && s.loop.reading == Some(i) && Orders(turn.order, s.stage.scene)
    requires i < |s.links| && Handshake.PassEffect(s.links[i].conn, Iterate(o.conn, s.links[i].conn, turn.ch))
    requires s.links[i].conn.spawned ==> s.links[i].conn.connected
    ensures Core(o, AfterPass(o, s, i, turn))
    ensures AfterPass(o, s, i, turn).loop == s.loop && |AfterPass(o, s, i, turn).links| == |s.links|
  {
    var p := Iterate(o.conn, s.links[i].conn, turn.ch);
    if Fires(s.links[i].conn, p.state) {
      ConnectedCore(o, s, i, p, turn);
    } else {
      QuietPassCore(o, s, i, p);
    }
  }

  /** Tracking and showing more packets of the source extends both folds and changes nothing before it. */
  lemma FoldsExtend(o: Options, st: Stage, i: nat, gs: seq<GamePacket>)
    requires st.source == Some(i) && st.scene == TrackAll(EMPTY, From(st.delivered, i))
    ensures var ds := st.delivered + Deliveries(i, gs);
      && TrackAll(st.scene, gs) == TrackAll(EMPTY, From(ds, i))
      && Left(o, ds, i) == Left(o, st.delivered, i)
      && (st.view == ShowAll(o.local, Remnant(Left(o, ds, i)), From(st.delivered, i)) ==>
            ShowAll(o.local, st.view, gs) == ShowAll(o.local, Remnant(Left(o, ds, i)), From(ds, i)))
  {
    var shown, ds := From(st.delivered, i), st.delivered + Deliveries(i, gs);
    FromAppend(st.delivered, i, gs);
    forall j: nat | j < i ensures From(ds, j) == From(st.delivered, j) {
      FromOther(st.delivered, j, i, gs);
    }
    LeftFrame(o, st.delivered, ds, i);
    TrackAllAppend(EMPTY, shown, gs);
    ShowAllAppend(o.local, Remnant(Left(o, ds, i)), shown, gs);
  }

  /** Delivering more packets of the source leaves it the latest. */
  lemma DeliveringKeepsSource(s: Session, t: Session, i: nat, gs: seq<GamePacket>)
    requires SourceIsLatest(s) && s.stage.source == t.stage.source == Some(i)
    requires t.links == s.links && (t.loop.reading == s.loop.reading || t.loop.reading.None?)
    requires t.stage.delivered == s.stage.delivered + Deliveries(i, gs)
    ensures SourceIsLatest(t)
  {
  }

  lemma ForwardIsolates(o: Options, s: Session, t: Session, i: nat, gs: seq<GamePacket>)
    requires Isolated(o, s) && s.stage.source == Some(i)
    requires t.links == s.links && t.loop == s.loop && t.once == s.once
    requires t.stage == s.stage.(scene := TrackAll(s.stage.scene, gs), view := ShowAll(o.local, s.stage.view, gs),
                                 delivered := s.stage.delivered + Deliveries(i, gs))
    ensures Isolated(o, t)
  {
    FoldsExtend(o, s.stage, i, gs);
    DeliveringKeepsSource(s, t, i, gs);
  }

  lemma ForwardCore(o: Options, s: Session, i: nat, pk: Packet, clientOk: bool)
    requires Core(o, s) && s.stage.source == Some(i) && s.loop.started
    ensures Core(o, Forward(o, s, i, pk, clientOk))
  {
    var gs := Games(Converted(o.conn, pk));
    var t := Forward(o, s, i, pk, clientOk);
    if clientOk {
      OutcomesFrame(s, t);
      ForwardIsolates(o, s, t, i, gs);
    } else {
      EndLoopCore(o, s);
      OutcomesFrame(EndLoop(s), t);
      FoldsExtend(o, s.stage, i, gs);
      assert SourceIsLatest(t);
    }
  }

  lemma ProcessCore(o: Options, s: Session, i: nat, item: Item, turn: Turn)
    requires Core(o, s) && s.stage.source == Some(i) && s.loop.started
    ensures Core(o, Process(o, s, i, item, turn))
  {
    if item.Decoded? && item.pk.Transfer? {
      TransferCore(o, s, turn.next);
    } else if item.Decoded? && (item.pk.Latency? || item.pk.UpdateCache?) {
    } else if turn.cancels {
    } else if item.Decoded? && !item.pk.Flush? {
      ForwardCore(o, s, i, item.pk, turn.clientOk);
    } else {
      EndLoopCore(o, s);
    }
  }

  lemma ReadFailedCore(o: Options, s: Session, i: nat, turn: Turn)
    requires Core(o, s) && i < |s.links|
    ensures Core(o, ReadFailed(s, i, turn))
  {
    if i == |s.links| - 1 {
      var c := CloseLink(s, i);
      CloseLinkCore(o, s, i);
      FallbackCore(o, c, turn.discoverOk, turn.next);
      EndLoopCore(o, Fallback(c, turn.discoverOk, turn.next).session);
    }
  }

  /** The loop forgets the connection it was reading. */
  lemma IdleCore(o: Options, s: Session)
    requires Core(o, s)
    ensures Core(o, Idle(s))
  {
    OutcomesFrame(s, Idle(s));
    IsolationFrame(o, s, Idle(s));
  }

  lemma TakeCore(o: Options, s: Session, i: nat, item: Item, cancelled: bool)
    requires Core(o, s)
    ensures Core(o, Take(s, i, item, cancelled))
  {
    OutcomesFrame(s, Take(s, i, item, cancelled));
    IsolationFrame(o, s, Take(s, i, item, cancelled));
  }

  lemma ReactCore(o: Options, s: Session, i: nat, out: Outcome, turn: Turn)
    requires Core(o, s) && i < |s.links|
    requires out.Returned? ==> s.stage.source == Some(i)
    ensures Core(o, React(o, s, i, out, turn))
  {
    match out
    case Again =>
    case Crash =>
      OutcomesFrame(s, s.(crashed := true));
      IsolationFrame(o, s, s.(crashed := true));
    case Error =>
      IdleCore(o, s);
      ReadFailedCore(o, Idle(s), i, turn);
    case Returned(item) =>
      TakeCore(o, s, i, item, turn.cancels);
      ProcessCore(o, Take(s, i, item, turn.cancels), i, item, turn);
  }

  /** A connection the loop may read and that is spawned is the one spawned last. */
  lemma ReaderIsSource(s: Session, i: nat)
    requires SourceIsLatest(s) && i < |s.links| && s.loop.reading == Some(i) && s.links[i].conn.spawned
    ensures s.stage.source == Some(i)
  {
  }

  lemma TurnCore(o: Options, s: Session, i: nat, turn: Turn)
    requires Core(o, s) && i < |s.links| && s.loop.reading == Some(i)
    requires Handshake.Inv(o.conn, s.links[i].conn)
    ensures Core(o, TakeTurn(o, s, i, turn))
  {
    if Orders(turn.order, s.stage.scene) {
      var p := Iterate(o.conn, s.links[i].conn, turn.ch);
      Handshake.PassEffects(o.conn, s.links[i].conn, turn.ch);
      AfterPassCore(o, s, i, turn);
      var t := AfterPass(o, s, i, turn);
      if p.outcome.Returned? {
        assert t.links[i].conn == p.state;
        ReaderIsSource(t, i);
      }
      ReactCore(o, t, i, p.outcome, turn);
    }
  }

  // ---- the connections stay sound ---------------------------------------------------------

  lemma AdvanceSound(o: Options, s: Session, i: nat, c: State)
    requires Sound(o, s) && i < |s.links| && Handshake.Inv(o.conn, c)
    ensures Sound(o, Advance(s, i, c))
  {
  }

  lemma ProcessSound(o: Options, s: Session, i: nat, item: Item, turn: Turn)
    requires Sound(o, s)
    ensures Sound(o, Process(o, s, i, item, turn))
  {
    TransferSound(o, s, turn.next);
    ShutSound(o, s);
  }

  /** A failed pass leaves the connection sound once it is closed, and a superseded one already is. */
  lemma FailedPassSound(o: Options, s: Session, i: nat, turn: Turn)
    requires Sound(o, s) && SingleOpen(s) && i < |s.links|
    requires Iterate(o.conn, s.links[i].conn, turn.ch).outcome.Error?
    requires !Fires(s.links[i].conn, Iterate(o.conn, s.links[i].conn, turn.ch).state)
    ensures Sound(o, ReadFailed(Idle(AfterPass(o, s, i, turn)), i, turn))
  {
    var l := s.links[i];
    var c := Iterate(o.conn, l.conn, turn.ch).state;
    Handshake.PassKeeps(o.conn, l.conn, turn.ch);
    Handshake.PassEffects(o.conn, l.conn, turn.ch);
    var t := Idle(AfterPass(o, s, i, turn));
    assert t.links == s.links[i := l.(conn := c)];
    if i == |s.links| - 1 {
      var u := CloseLink(t, i);
      assert u.links == s.links[i := l.(conn := Close(c))];
      assert Sound(o, u);
      FallbackSound(o, u, turn.discoverOk, turn.next);
      ShutSound(o, Fallback(u, turn.discoverOk, turn.next).session);
    } else {
      assert Close(c) == c;
    }
  }

  lemma TurnSound(o: Options, s: Session, i: nat, turn: Turn)
    requires Sound(o, s) && SingleOpen(s) && i < |s.links|
    ensures Sound(o, TakeTurn(o, s, i, turn))
  {
    var p := Iterate(o.conn, s.links[i].conn, turn.ch);
    Handshake.PassEffects(o.conn, s.links[i].conn, turn.ch);
    if p.outcome.Error? {
      FailedPassSound(o, s, i, turn);
    } else {
      Handshake.PassKeeps(o.conn, s.links[i].conn, turn.ch);
      AdvanceSound(o, s, i, p.state);
      var t := AfterPass(o, s, i, turn);
      assert t.links == Advance(s, i, p.state).links;
      if p.outcome.Returned? {
        ProcessSound(o, Take(t, i, p.outcome.item, turn.cancels), i, p.outcome.item, turn);
      }
    }
  }

  // ---- every step, every run --------------------------------------------------------------

  lemma LoginCore(o: Options, s: Session, ok: bool, input: seq<Byte>)
    requires Core(o, s) && !s.loop.started
    ensures Core(o, LoginDial(s, ok, input))
  {
    var t := s.(loop := Loop(None, true, s.loop.ended));
    assert s.links == [];
    OutcomesFrame(s, t);
    IsolationFrame(o, s, t);
    DialCore(o, t, ok, input);
    var d := Dial(t, ok, input);
    var u := d.session.(loop := Loop(None, true, !d.ok));
    assert LoginDial(s, ok, input) == u;
    OutcomesFrame(d.session, u);
    IsolationFrame(o, d.session, u);
  }

  lemma LoginSound(o: Options, s: Session, ok: bool, input: seq<Byte>)
    requires Sound(o, s)
    ensures Sound(o, LoginDial(s, ok, input))
  {
    DialSound(o, s, ok, input);
  }

  /** The login connection is spawned only while it is the only one. */
  lemma SpawnLoginCore(o: Options, s: Session)
    requires Core(o, s) && CanSpawnLogin(s)
    ensures Core(o, SpawnLink(s))
  {
    var t := SpawnLink(s);
    assert |s.links| == 1;
    assert Replaced(s, t, 0);
    ReplacedKeepsOutcomes(s, t, 0);
    assert s.stage.source.None?;
    assert From(s.stage.delivered, 0) == [];
  }

  lemma SpawnLoginSound(o: Options, s: Session)
    requires Sound(o, s) && Wired(s) && CanSpawnLogin(s)
    ensures Sound(o, SpawnLink(s))
  {
    Handshake.SpawnKeeps(o.conn, s.links[0].conn);
    assert SpawnLink(s).links == s.links[0 := s.links[0].(conn := DoSpawn(s.links[0].conn).state)];
  }

  lemma TopCore(o: Options, s: Session)
    requires Core(o, s) && s.links != []
    ensures Core(o, s.(loop := s.loop.(reading := Some(|s.links| - 1))))
  {
    OutcomesFrame(s, s.(loop := s.loop.(reading := Some(|s.links| - 1))));
  }

  /** Every step but a turn of the loop keeps the core invariant without looking into a connection. */
  lemma OtherStepCore(o: Options, s: Session, e: SessionEvent)
    requires Core(o, s) && !e.LoopPass?
    ensures Core(o, Next(o, s, e))
  {
    if s.crashed {
      return;
    }
    match e
    case Login(ok, input) => if !s.loop.started { LoginCore(o, s, ok, input); }
    case SpawnLogin => if CanSpawnLogin(s) { SpawnLoginCore(o, s); }
    case TransferTo(c) => if s.loop.started { TransferCore(o, s, c); }
    case LoopTop =>
      if s.links == [] || s.loop.ended || s.loop.reading.Some? {
      } else if s.ctxDone {
        EndLoopCore(o, s);
      } else {
        TopCore(o, s);
      }
    case CloseServer(i) => if i < |s.links| { CloseLinkCore(o, s, i); }
    case CloseSession => ShutCore(o, s);
    case ClientGone =>
      OutcomesFrame(s, s.(ctxDone := true));
      IsolationFrame(o, s, s.(ctxDone := true));
  }

  lemma StepCore(o: Options, s: Session, e: SessionEvent)
    requires Inv(o, s)
    ensures Core(o, Next(o, s, e))
  {
    if e.LoopPass? {
      if !s.crashed && !s.loop.ended && s.loop.reading.Some? {
        TurnCore(o, s, s.loop.reading.value, e.turn);
      }
    } else {
      OtherStepCore(o, s, e);
    }
  }

  lemma StepSound(o: Options, s: Session, e: SessionEvent)
    requires Inv(o, s)
    ensures Sound(o, Next(o, s, e))
  {
    match e
    case Login(ok, input) => LoginSound(o, s, ok, input);
    case SpawnLogin => if CanSpawnLogin(s) { SpawnLoginSound(o, s); }
    case TransferTo(c) => TransferSound(o, s, c);
    case LoopTop => ShutSound(o, s);
    case LoopPass(turn) =>
      if !s.crashed && !s.loop.ended && s.loop.reading.Some? { TurnSound(o, s, s.loop.reading.value, turn); }
    case CloseServer(i) => if i < |s.links| { CloseLinkSound(o, s, i); }
    case CloseSession => ShutSound(o, s);
    case ClientGone =>
  }

  lemma {:induction false} RunKeeps(o: Options, es: seq<SessionEvent>)
    ensures Inv(o, Play(o, es))
  {
    if es == [] {
      InitialInv(o);
    } else {
      RunKeeps(o, es[..|es| - 1]);
      StepCore(o, Play(o, es[..|es| - 1]), es[|es| - 1]);
      StepSound(o, Play(o, es[..|es| - 1]), es[|es| - 1]);
    }
  }

  // ---- theorems ---------------------------------------------------------------------------

  /**
    Single open server: in every run, every connection but the newest is closed, and once the
    session is closed so is the newest.
   */
  lemma SingleOpenServer(o: Options, es: seq<SessionEvent>, i: nat)
    requires i < |Play(o, es).links|
    ensures i != |Play(o, es).links| - 1 || Play(o, es).once ==> Play(o, es).links[i].conn.closed
  {
    RunKeeps(o, es);
  }

  /** A session whose context is done stays so and creates no connection. */
  ghost predicate Dead(s: Session, t: Session) {
    t.ctxDone && |t.links| == |s.links| && (s.once ==> t.once)
  }

  lemma DeadReact(o: Options, s: Session, i: nat, out: Outcome, turn: Turn)
    requires s.ctxDone && i < |s.links|
    ensures Dead(s, React(o, s, i, out, turn))
  {
    match out
    case Again =>
    case Crash =>
    case Error => if i == |s.links| - 1 { if s.once {} }
    case Returned(item) =>
      if item.Decoded? && item.pk.Transfer? {
        if turn.next.cancelled {}
      } else if item.Decoded? && (item.pk.Latency? || item.pk.UpdateCache?) {
      } else if turn.cancels {
      } else if item.Decoded? && !item.pk.Flush? {
        if turn.clientOk {} else if s.once {}
      } else if turn.clientOk {
      } else if s.once {
      }
  }

  lemma DeadStep(o: Options, s: Session, e: SessionEvent)
    requires s.ctxDone
    ensures Dead(s, Next(o, s, e))
  {
    if !s.crashed {
      match e
      case Login(ok, input) =>
      case SpawnLogin =>
      case TransferTo(c) => if c.cancelled {}
      case LoopTop => if s.once {}
      case LoopPass(turn) =>
        if !s.loop.ended && s.loop.reading.Some? && s.loop.reading.value < |s.links| {
          var i := s.loop.reading.value;
          var t := AfterPass(o, s, i, turn);
          assert Dead(s, t) by {
            if Fires(s.links[i].conn, Iterate(o.conn, s.links[i].conn, turn.ch).state) {}
          }
          DeadReact(o, t, i, Iterate(o.conn, s.links[i].conn, turn.ch).outcome, turn);
        }
      case CloseServer(i) =>
      case CloseSession => if s.once {}
      case ClientGone =>
    }
  }

  lemma PlayLast(o: Options, es: seq<SessionEvent>, e: SessionEvent)
    ensures Play(o, es + [e]) == Next(o, Play(o, es), e)
  {
    assert (es + [e])[..|es|] == es;
  }

  lemma {:induction false} DeadRun(o: Options, es: seq<SessionEvent>, more: seq<SessionEvent>)
    requires Play(o, es).ctxDone
    ensures Dead(Play(o, es), Play(o, es + more))
    decreases |more|
  {
    if more == [] {
      assert es + more == es;
    } else {
      var init, e := more[..|more| - 1], more[|more| - 1];
      DeadRun(o, es, init);
      assert es + more == (es + init) + [e];
      PlayLast(o, es + init, e);
      DeadStep(o, Play(o, es + init), e);
    }
  }

  ghost predicate AllClosed(s: Session) {
    forall i :: 0 <= i < |s.links| ==> s.links[i].conn.closed
  }

  /** Once the session is closed, no continuation of the run ever creates a connection or leaves one open. */
  lemma NoDialAfterClose(o: Options, es: seq<SessionEvent>, more: seq<SessionEvent>)
    requires Play(o, es).once
    ensures |Play(o, es + more).links| == |Play(o, es).links|
    ensures AllClosed(Play(o, es + more))
  {
    RunKeeps(o, es);
    DeadRun(o, es, more);
    RunKeeps(o, es + more);
  }

  /**
    Transfer outcomes: in every run each attempt has reported at most once, as a failure or as a
    completion; and it has reported exactly once if and only if it never got a callback (its dial
    or connection request failed) or its connection has connected or closed, whoever closed it.
   */
  lemma TransferOutcomes(o: Options, es: seq<SessionEvent>, t: nat)
    requires t < |Play(o, es).attempts|
    ensures var s := Play(o, es); var a := s.attempts[t];
      && a.failures + a.posts <= 1
      && (a.link.Some? ==> a.link.value < |s.links| && s.links[a.link.value].owner == Some(t))
      && (a.failures + a.posts == 1 <==> a.link.None? || Settled(s.links[a.link.value].conn))
  {
    RunKeeps(o, es);
    assert AttemptOk(Play(o, es), t);
  }

  /** Attempt `t` is waiting for the handshake of the current connection. */
  ghost predicate Connecting(s: Session, t: nat) {
    && t < |s.attempts| && s.links != []
    && s.attempts[t].link == Some(|s.links| - 1) && !Settled(s.links[|s.links| - 1].conn)
  }

  ghost predicate Superseded(s: Session, t: nat, c: TransferChoice, d: Did) {
    && (d.ok <==> c.dialOk && c.connectOk)
    && |d.session.links| == |s.links| + (if c.dialOk then 1 else 0)
    && s.links != [] && d.session.links[|s.links| - 1].conn.closed
    && t < |d.session.attempts| && d.session.attempts[t] == Attempt(Some(|s.links| - 1), 1, 0)
  }

  /** An attempt whose connection is still connecting: closing that connection will report it. */
  lemma Unreported(o: Options, s: Session, t: nat)
    requires Core(o, s) && Connecting(s, t)
    ensures s.attempts[t] == Attempt(Some(|s.links| - 1), 0, 0)
    ensures var l := s.links[|s.links| - 1]; l.owner == Some(t) && CloseNotifies(l.conn)
  {
    assert AttemptOk(s, t);
  }

  lemma SupersedeStep(s: Session, t: nat, c: TransferChoice)
    requires !s.ctxDone && !c.cancelled && t < |s.attempts| && s.links != []
    requires s.attempts[t] == Attempt(Some(|s.links| - 1), 0, 0)
    requires var l := s.links[|s.links| - 1]; l.owner == Some(t) && CloseNotifies(l.conn)
    ensures Superseded(s, t, c, TransferContext(s, c))
  {
    var u := CloseCurrent(s);
    assert u.attempts[t] == Attempt(Some(|s.links| - 1), 1, 0) && u.links[|s.links| - 1].conn.closed;
    if c.dialOk {
      if c.connectOk {}
    }
  }

  /**
    A second transfer is not refused while one is in progress: it closes the connection of the
    first, whose failure hook fires there and then.
   */
  lemma SecondTransferSupersedes(o: Options, es: seq<SessionEvent>, t: nat, c: TransferChoice)
    requires Connecting(Play(o, es), t) && !Play(o, es).ctxDone && !c.cancelled
    ensures Superseded(Play(o, es), t, c, TransferContext(Play(o, es), c))
  {
    RunKeeps(o, es);
    Unreported(o, Play(o, es), t);
    SupersedeStep(Play(o, es), t, c);
  }

  /**
    Bounded fallback: in every run the fallbacks started exceed the completed transfers by at most
    one, and one is in progress exactly when it began after the last completed transfer.
   */
  lemma BoundedFallback(o: Options, es: seq<SessionEvent>)
    ensures var f := Play(o, es).fall;
      && Count(f.marks, BeganFallback) <= Count(f.marks, CompletedTransfer) + 1
      && (f.active <==> f.marks != [] && f.marks[|f.marks| - 1] == BeganFallback)
  {
    RunKeeps(o, es);
  }

  /** With a fallback in progress, a failed read of the current server is the end. */
  lemma FailureEnds(s: Session, i: nat, turn: Turn)
    requires s.fall.active && s.links != [] && i == |s.links| - 1
    ensures ReadFailed(s, i, turn).once && ReadFailed(s, i, turn).loop.ended
  {
    var c := CloseLink(s, i);
    assert Fallback(c, turn.discoverOk, turn.next) == Did(c, false);
    if c.once {}
  }

  lemma TurnFails(o: Options, s: Session, i: nat, turn: Turn)
    requires i < |s.links| && Orders(turn.order, s.stage.scene)
    requires var p := Iterate(o.conn, s.links[i].conn, turn.ch);
             p.outcome.Error? && Handshake.PassEffect(s.links[i].conn, p)
    ensures TakeTurn(o, s, i, turn) ==
            ReadFailed(Idle(Advance(s, i, Iterate(o.conn, s.links[i].conn, turn.ch).state)), i, turn)
  {
  }

  lemma FailedTurnEnds(o: Options, s: Session, i: nat, turn: Turn)
    requires i < |s.links| && i == |s.links| - 1 && s.fall.active && Orders(turn.order, s.stage.scene)
    requires var p := Iterate(o.conn, s.links[i].conn, turn.ch);
             p.outcome.Error? && Handshake.PassEffect(s.links[i].conn, p)
    ensures TakeTurn(o, s, i, turn).once && TakeTurn(o, s, i, turn).loop.ended
  {
    var u := Idle(Advance(s, i, Iterate(o.conn, s.links[i].conn, turn.ch).state));
    TurnFails(o, s, i, turn);
    assert u.fall.active && |u.links| == |s.links|;
    FailureEnds(u, i, turn);
  }

  /** A second failure of the current server inside that window closes the session and ends the server loop. */
  lemma SecondFailureEndsSession(o: Options, es: seq<SessionEvent>, i: nat, turn: Turn)
    requires var s := Play(o, es);
      && s.fall.active && Orders(turn.order, s.stage.scene)
      && i < |s.links| && i == |s.links| - 1 && s.loop.reading == Some(i)
      && Iterate(o.conn, s.links[i].conn, turn.ch).outcome.Error?
    ensures var t := TakeTurn(o, Play(o, es), i, turn);
      t.once && t.loop.ended && forall j :: 0 <= j < |t.links| ==> t.links[j].conn.closed
  {
    RunKeeps(o, es);
    Handshake.PassEffects(o.conn, Play(o, es).links[i].conn, turn.ch);
    FailedTurnEnds(o, Play(o, es), i, turn);
    TurnCore(o, Play(o, es), i, turn);
  }

  // ---- isolation: theorems ----------------------------------------------------------------

  /**
    Transfer isolation: in every run, whatever connections came before, the tracker is the fold of
    exactly the packets delivered from the connection spawned last; the client shows what that
    connection alone would have made it show on top of the effects the clears have left, and
    nothing else of any earlier connection; and no later connection is spawned.
   */
  lemma TransferIsolation(o: Options, es: seq<SessionEvent>)
    ensures var s := Play(o, es);
      && s.stage.scene == TrackAll(EMPTY, Showing(s.stage))
      && (!s.once ==> s.stage.view == ShowAll(o.local, Remnant(LeftBefore(o, s.stage)), Showing(s.stage)))
      && (forall i :: 0 <= i < |s.links| && s.links[i].conn.spawned ==> s.stage.source.Some? && i <= s.stage.source.value)
  {
    RunKeeps(o, es);
  }

  /** The earlier connections make no difference if and only if the current one has reset all they left. */
  lemma FullIsolationIff(o: Options, es: seq<SessionEvent>)
    requires !Play(o, es).once
    ensures var st := Play(o, es).stage;
      st.view == ShowAll(o.local, EMPTY, Showing(st)) <==>
        forall e :: e in LeftBefore(o, st) ==> Resets(o.local, Showing(st), e)
  {
    RunKeeps(o, es);
    var st := Play(o, es).stage;
    RemnantGoneIff(o.local, LeftBefore(o, st), Showing(st));
  }

  /**
    An effect is left after connection `k` if and only if `k` lost it, or it was left before and
    `k` neither reset it nor had it tracked at the end for somebody else.
   */
  lemma LeftAfterIff(o: Options, ds: seq<Delivery>, k: nat, e: int)
    ensures e in Left(o, ds, k + 1) <==>
            || Lost(o.local, From(ds, k), e)
            || (e in Left(o, ds, k) && !Resets(o.local, From(ds, k), e) && e !in TrackAll(EMPTY, From(ds, k)).effects)
  {
    RemnantShows(o.local, Left(o, ds, k), From(ds, k), e);
    EffectLostIff(o.local, From(ds, k), e);
  }

  ghost predicate NothingLeft(o: Options, ds: seq<Delivery>, n: nat) {
    forall k: nat :: k <= n ==> Left(o, ds, k) == {}
  }

  ghost predicate NothingLost(o: Options, ds: seq<Delivery>, n: nat) {
    forall k: nat :: k < n ==> LosesNothing(o.local, From(ds, k))
  }

  /** If nothing was left before connection `k`, then nothing is left after it exactly if it lost nothing. */
  lemma NothingLeftAfterIff(o: Options, ds: seq<Delivery>, k: nat)
    requires Left(o, ds, k) == {}
    ensures Left(o, ds, k + 1) == {} <==> LosesNothing(o.local, From(ds, k))
  {
    var gs, left := From(ds, k), Left(o, ds, k + 1);
    NothingLostIff(o.local, gs);
    forall e ensures e in left <==> Lost(o.local, gs, e) { LeftAfterIff(o, ds, k, e); }
    if LosesNothing(o.local, gs) {
      assert forall e :: e !in left;
      EmptyIff(left);
    } else {
      var e :| Lost(o.local, gs, e);
      assert e in left;
    }
  }

  /** Every one of the first `n` clears was complete if and only if none of those connections lost an effect. */
  lemma {:induction false} NothingLeftIff(o: Options, ds: seq<Delivery>, n: nat)
    ensures NothingLeft(o, ds, n) <==> NothingLost(o, ds, n)
  {
    if n > 0 {
      NothingLeftIff(o, ds, n - 1);
      if NothingLeft(o, ds, n - 1) {
        NothingLeftAfterIff(o, ds, n - 1);
        assert NothingLeft(o, ds, n) <==> Left(o, ds, n) == {};
        assert NothingLost(o, ds, n) <==> LosesNothing(o.local, From(ds, n - 1));
      } else {
        assert !NothingLeft(o, ds, n) && !NothingLost(o, ds, n);
      }
    }
  }

  lemma TurnCompletes(o: Options, s: Session, i: nat, turn: Turn)
    requires i < |s.links| && Orders(turn.order, s.stage.scene)
    requires var p := Iterate(o.conn, s.links[i].conn, turn.ch);
             Fires(s.links[i].conn, p.state) && Handshake.PassEffect(s.links[i].conn, p)
    ensures var t := TakeTurn(o, s, i, turn);
            var u := Connected(o, Advance(s, i, Iterate(o.conn, s.links[i].conn, turn.ch).state), i, turn.order, turn.spawnOk);
            t.stage == u.stage && t.fall == u.fall && t.attempts == u.attempts
  {
    if Iterate(o.conn, s.links[i].conn, turn.ch).outcome.Again? {}
  }

  /** Only the current connection of an open session completes its handshake, and it is later than the source. */
  lemma FiringIsCurrent(o: Options, s: Session, i: nat, p: Pass)
    requires SingleOpen(s) && SourceIsLatest(s) && i < |s.links| && s.loop.reading == Some(i)
    requires Handshake.Signals(s.links[i].conn) && Handshake.PassEffect(s.links[i].conn, p)
    requires Fires(s.links[i].conn, p.state)
    ensures i == |s.links| - 1 && !s.once && (s.stage.source.Some? ==> s.stage.source.value < i)
  {
  }

  lemma CompletionStep(o: Options, s: Session, i: nat, turn: Turn)
    requires Inv(o, s) && i < |s.links| && s.loop.reading == Some(i) && Orders(turn.order, s.stage.scene)
    requires Fires(s.links[i].conn, Iterate(o.conn, s.links[i].conn, turn.ch).state)
    ensures var t := TakeTurn(o, s, i, turn);
      && i == |s.links| - 1 && t.stage.source == Some(i) && t.stage.scene == EMPTY
      && t.stage.view == Remnant(Left(o, s.stage.delivered, i))
      && (turn.spawnOk ==> !t.fall.active)
  {
    Handshake.PassEffects(o.conn, s.links[i].conn, turn.ch);
    TurnCompletes(o, s, i, turn);
    FiringIsCurrent(o, s, i, Iterate(o.conn, s.links[i].conn, turn.ch));
    ClearLeaves(o, s.stage, i, turn.order);
  }

  /**
    The handshake of a transfer's connection completing moves the stage to it, with nothing
    tracked; nothing is shown either if no earlier connection has lost an effect.
   */
  lemma CompletionClears(o: Options, es: seq<SessionEvent>, i: nat, turn: Turn)
    requires var s := Play(o, es);
      && i < |s.links| && s.loop.reading == Some(i) && Orders(turn.order, s.stage.scene)
      && Fires(s.links[i].conn, Iterate(o.conn, s.links[i].conn, turn.ch).state)
    ensures var s := Play(o, es); var t := TakeTurn(o, s, i, turn);
      && i == |s.links| - 1 && t.stage.source == Some(i) && t.stage.scene == EMPTY
      && t.stage.view == Remnant(Left(o, s.stage.delivered, i))
      && (NothingLost(o, s.stage.delivered, i) ==> t.stage.view == EMPTY)
      && (turn.spawnOk ==> !t.fall.active)
  {
    RunKeeps(o, es);
    CompletionStep(o, Play(o, es), i, turn);
    NothingLeftIff(o, Play(o, es).stage.delivered, i);
  }
}
