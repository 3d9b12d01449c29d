/**
  From the wire to the reader: in every run the items a connection has read are what `read` makes
  of the consecutive frames of its input, so together with delivery conservation nothing between
  the first byte and the caller of ReadPacket is lost, duplicated or reordered.

  Decoding depends on the shield ID, which the handshake learns on the way; `ItemsOf` is the
  meaning of a frame sequence with that dependence spelled out, and knows nothing of the machine.
 */
module WireDelivery {
  import opened Bytes
  import opened Framing
  import opened ServerConn
  import opened Handshake
  import Batch

  /** The shield ID in force once `xs` have been read: that of the item registry the script matches in them. */
  function ShieldKnown(cfg: Config, xs: seq<Item>): int {
    ShieldOf(cfg, Matched(Script(cfg), Expand(cfg, xs)))
  }

  /** The body of a frame: the bytes behind the flag byte, decompressed if bit 1 of it is set. */
  function BodyOf(codec: Batch.Codec, f: Payload): Option<seq<Byte>> {
    if f == [] then None
    else if f[0] / 2 % 2 == 1 then codec.decode(f[1..])
    else Some(f[1..])
  }

  /** What one frame stands for: its body as it is, or the decoded packet if bit 0 of the flag byte is set. */
  function Opened(cfg: Config, f: Payload, shieldID: int): Option<Item> {
    match BodyOf(cfg.codec, f)
    case None => None
    case Some(b) =>
      if f[0] % 2 == 0 then Some(Raw(b)) else
      match cfg.decode(shieldID, b)
      case None => None
      case Some(pk) => Some(Decoded(pk))
  }

  /** The items that consecutive frames stand for, each decoded with what the items before it establish. */
  function ItemsOf(cfg: Config, fs: seq<Payload>): seq<Item> {
    if fs == [] then [] else
    var xs := ItemsOf(cfg, fs[..|fs| - 1]);
    match Opened(cfg, fs[|fs| - 1], ShieldKnown(cfg, xs))
    case None => xs
    case Some(x) => xs + [x]
  }

  predicate Open(s: State) {
    !s.closed && !Crashed(s)
  }

  /** The frames `fs` were read from `input` as `items`; of the `tail` behind them all or nothing is left. */
  ghost predicate Feeds(cfg: Config, input: seq<Byte>, items: seq<Item>, left: seq<Byte>, fs: seq<Payload>, tail: seq<Byte>) {
    Framable(fs) && input == Stream(fs) + tail && items == ItemsOf(cfg, fs) && (left == tail || left == [])
  }

  ghost predicate Fed(cfg: Config, input: seq<Byte>, s: State, fs: seq<Payload>, tail: seq<Byte>) {
    && Feeds(cfg, input, s.log.arrived + s.log.later, s.input, fs, tail)
    && (Open(s) ==> s.input == tail && |fs| == |s.log.arrived + s.log.later|)
  }

  // ---- the shield ID ----------------------------------------------------------------------

  /** A complete match is not changed by anything that arrives later. */
  lemma {:induction false} CompleteMatchIsFinal(script: seq<PacketId>, xs: seq<Item>, ys: seq<Item>)
    requires |Matched(script, xs)| == |script|
    ensures Matched(script, xs + ys) == Matched(script, xs)
    decreases |ys|
  {
    if ys == [] {
      assert xs + ys == xs;
    } else {
      var init, y := ys[..|ys| - 1], ys[|ys| - 1];
      CompleteMatchIsFinal(script, xs, init);
      assert xs + ys == (xs + init) + [y];
      MatchedSnoc(script, xs + init, y);
    }
  }

  lemma {:induction false} ExpandAppend(cfg: Config, xs: seq<Item>, ys: seq<Item>)
    ensures Expand(cfg, xs + ys) == Expand(cfg, xs) + Expand(cfg, ys)
    decreases |ys|
  {
    if ys == [] {
      assert xs + ys == xs;
    } else {
      var init, y := ys[..|ys| - 1], ys[|ys| - 1];
      ExpandAppend(cfg, xs, init);
      assert xs + ys == (xs + init) + [y];
      ExpandSnoc(cfg, xs + init, y);
      Regroup(Expand(cfg, xs), Expand(cfg, init), ExpandOne(cfg, y));
    }
  }

  predicate MayRead(s: State) {
    !Crashed(s) && (s.spawned || !s.closed)
  }

  /** Whenever the connection may read, its shield ID is the one its items establish. */
  lemma ShieldIsKnown(cfg: Config, s: State)
    requires Inv(cfg, s) && MayRead(s)
    ensures s.hs.shieldID == ShieldKnown(cfg, s.log.arrived + s.log.later)
  {
    if s.spawned {
      ExpandAppend(cfg, s.log.arrived, s.log.later);
      CompleteMatchIsFinal(Script(cfg), s.log.seen, Expand(cfg, s.log.later));
    } else {
      assert s.log.arrived + s.log.later == s.log.arrived;
    }
  }

  // ---- one read ---------------------------------------------------------------------------

  lemma StreamSnoc(fs: seq<Payload>, f: Payload, rest: seq<Byte>)
    ensures Stream(fs) + (Frame(f) + rest) == Stream(fs + [f]) + rest
  {
    StreamAppend(fs, [f]);
    assert Stream([f]) == Frame(f) by { assert [f][1..] == []; }
    assert Stream(fs) + (Frame(f) + rest) == (Stream(fs) + Frame(f)) + rest;
  }

  function ItemRead(r: ReadOutcome): Option<Item> {
    if r.ReadItem? then Some(r.item) else None
  }

  function With(xs: seq<Item>, x: Option<Item>): seq<Item> {
    if x.Some? then xs + [x.value] else xs
  }

  lemma ItemsOfSnoc(cfg: Config, fs: seq<Payload>, f: Payload)
    ensures ItemsOf(cfg, fs + [f]) == With(ItemsOf(cfg, fs), Opened(cfg, f, ShieldKnown(cfg, ItemsOf(cfg, fs))))
  {
    assert (fs + [f])[..|fs|] == fs;
  }

  /**
    What `read` makes of the next frame, for every flag byte, body and codec: it consumes exactly
    that frame and returns what the frame stands for; it panics exactly on an empty frame, and fails
    exactly when decompressing or decoding does.
   */
  lemma ReadOpensFrame(cfg: Config, f: Payload, rest: seq<Byte>, shieldID: int)
    requires |f| < WORD
    ensures var r := Read(cfg, Frame(f) + rest, shieldID, true);
      && r.rest == rest && ItemRead(r) == Opened(cfg, f, shieldID)
      && (r.ReadPanic? <==> f == [])
  {
    FrameRoundTripIff(f, rest);
  }

  lemma FrameFeeds(
    cfg: Config, input: seq<Byte>, items: seq<Item>, left: seq<Byte>, fs: seq<Payload>, f: Payload, rest: seq<Byte>)
    requires Feeds(cfg, input, items, left, fs, left) && |f| < WORD && left == Frame(f) + rest
    ensures Feeds(cfg, input, With(items, Opened(cfg, f, ShieldKnown(cfg, items))), rest, fs + [f], rest)
  {
    StreamSnoc(fs, f, rest);
    ItemsOfSnoc(cfg, fs, f);
  }

  /** One read takes one frame, or finds none and drains the stream. */
  lemma ReadFeeds(
    cfg: Config, input: seq<Byte>, items: seq<Item>, left: seq<Byte>, fs: seq<Payload>, tail: seq<Byte>, readOk: bool)
    returns (gs: seq<Payload>, rest: seq<Byte>)
    requires Feeds(cfg, input, items, left, fs, tail)
    ensures var r := Read(cfg, left, ShieldKnown(cfg, items), readOk);
      && Feeds(cfg, input, With(items, ItemRead(r)), r.rest, gs, rest)
      && (r.ReadItem? ==> r.rest == rest && |gs| == |fs| + 1)
  {
    if readOk && ReadFrame(left).Got? {
      ReadFrameIsFrame(left);
      var f := ReadFrame(left).payload;
      rest := ReadFrame(left).rest;
      gs := fs + [f];
      assert left == tail;
      ReadOpensFrame(cfg, f, rest, ShieldKnown(cfg, items));
      FrameFeeds(cfg, input, items, left, fs, f, rest);
    } else {
      gs, rest := fs, tail;
    }
  }

  // ---- one step, every run ----------------------------------------------------------------

  /** A step reads nothing. */
  ghost predicate Idles(s: State, t: State) {
    t.input == s.input && t.log.arrived + t.log.later == s.log.arrived + s.log.later && (Open(t) ==> Open(s))
  }

  /** A step reads once and logs what it got. */
  ghost predicate Reads(cfg: Config, s: State, t: State, readOk: bool) {
    var r := Read(cfg, s.input, s.hs.shieldID, readOk);
    && MayRead(s) && t.input == r.rest
    && t.log.arrived + t.log.later == With(s.log.arrived + s.log.later, ItemRead(r))
    && (Open(t) ==> Open(s) && r.ReadItem?)
  }

  lemma SpawnedPassReads(cfg: Config, s: State, ch: Choice)
    requires MayRead(s) && s.spawned
    ensures var p := IterateSpawned(cfg, s, ch); var t := if p.outcome.Error? then Close(p.state) else p.state;
      if s.deferred != [] then Idles(s, t) else Reads(cfg, s, t, ch.readOk)
  {
    if s.deferred == [] {
      var r := Read(cfg, s.input, s.hs.shieldID, ch.readOk);
      if r.ReadItem? {
        assert s.log.arrived + (s.log.later + [r.item]) == (s.log.arrived + s.log.later) + [r.item];
      }
    }
  }

  lemma HandshakePassReads(cfg: Config, s: State, ch: Choice)
    requires MayRead(s) && !s.spawned && s.log.later == []
    ensures var p := IterateHandshake(cfg, s, ch); var t := if p.outcome.Error? then Close(p.state) else p.state;
      Reads(cfg, s, t, ch.readOk)
  {
    var r := Read(cfg, s.input, s.hs.shieldID, ch.readOk);
    if r.ReadItem? {
      assert (s.log.arrived + [r.item]) + [] == (s.log.arrived + []) + [r.item];
      if r.item.Decoded? {
        HandleAllFrame(cfg, Arrived(s, r.item, r.rest), Converted(cfg, r.item.pk), ch.writeOk);
      }
    }
  }

  lemma StepReads(cfg: Config, s: State, e: Event)
    requires Inv(cfg, s)
    ensures Idles(s, Step(cfg, s, e)) || (e.MakePass? && Reads(cfg, s, Step(cfg, s, e), e.ch.readOk))
  {
    if e.MakePass? && !Crashed(s) {
      if s.closed && (!s.spawned || e.ch.takeClosed) {
      } else if s.spawned {
        SpawnedPassReads(cfg, s, e.ch);
      } else {
        HandshakePassReads(cfg, s, e.ch);
      }
    }
  }

  lemma StepFeeds(cfg: Config, input: seq<Byte>, s: State, fs: seq<Payload>, tail: seq<Byte>, e: Event)
    returns (gs: seq<Payload>, rest: seq<Byte>)
    requires Inv(cfg, s) && Fed(cfg, input, s, fs, tail)
    ensures Fed(cfg, input, Step(cfg, s, e), gs, rest)
  {
    StepReads(cfg, s, e);
    if Idles(s, Step(cfg, s, e)) {
      gs, rest := fs, tail;
    } else {
      ShieldIsKnown(cfg, s);
      gs, rest := ReadFeeds(cfg, input, s.log.arrived + s.log.later, s.input, fs, tail, e.ch.readOk);
    }
  }

  lemma {:induction false} RunFeeds(cfg: Config, input: seq<Byte>, s: State, fs: seq<Payload>, tail: seq<Byte>, es: seq<Event>)
    returns (gs: seq<Payload>, rest: seq<Byte>)
    requires Inv(cfg, s) && Fed(cfg, input, s, fs, tail)
    ensures Fed(cfg, input, Run(cfg, s, es), gs, rest)
    decreases |es|
  {
    if es == [] {
      gs, rest := fs, tail;
    } else {
      StepKeeps(cfg, s, es[0]);
      gs, rest := StepFeeds(cfg, input, s, fs, tail, es[0]);
      gs, rest := RunFeeds(cfg, input, Step(cfg, s, es[0]), gs, rest, es[1..]);
    }
  }

  /**
    End to end, in every run: the input is a sequence of frames and a tail; the items read before
    and after spawn are what those frames stand for; and the packets returned followed by those
    deferred are the items, converted before spawn, less exactly the consumed ones. While the
    connection is open every frame gave an item and the tail is unread.
   */
  lemma FromWireToReader(cfg: Config, input: seq<Byte>, callback: bool, es: seq<Event>)
    returns (fs: seq<Payload>, tail: seq<Byte>)
    ensures Framable(fs) && input == Stream(fs) + tail
    ensures var s := Run(cfg, New(input, callback), es);
      && s.log.arrived + s.log.later == ItemsOf(cfg, fs)
      && (s.input == tail || s.input == [])
      && (Open(s) ==> s.input == tail && |ItemsOf(cfg, fs)| == |fs|)
      && s.log.returned + s.deferred == Residue(Script(cfg), s.log.seen) + s.log.later
      && s.log.seen <= Expand(cfg, s.log.arrived)
      && (s.log.seen != Expand(cfg, s.log.arrived) ==> Crashed(s) || (s.closed && !s.spawned && s.log.returned == []))
  {
    InitialInv(cfg, input, callback);
    assert Stream([]) + input == input;
    fs, tail := RunFeeds(cfg, input, New(input, callback), [], input, es);
    DeliveryConservation(cfg, input, callback, es);
  }
}
