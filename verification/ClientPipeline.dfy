/**
  The client-to-server pipeline (session/handler.go:158-257, session/processor.go:30-59): a batch
  of payloads becomes pooled contexts, the processor votes on them, and the survivors are
  forwarded raw or re-encoded.

  The processor is arbitrary except that it does not return contexts to the pool: for each context
  it may cancel, mark as modified, and edit the decoded packet in place with or without marking it.
 */
module ClientPipeline {
  import opened Bytes
  import opened Framing

  datatype Packet = Packet(id: nat, fields: seq<int>)

  /** `header` and `parse` fail with `None`; `marshal` gets whether the client's own protocol is used. */
  datatype Config = Config(
    syncProtocol: bool,
    clientIsLatest: bool,
    decodeAll: bool,
    clientDecode: set<nat>,
    known: set<nat>,
    header: Payload -> Option<nat>,
    parse: Payload -> Option<Packet>,
    convert: Packet -> seq<Packet>,
    marshal: (bool, Packet) -> Payload
  )

  datatype Ctx = Ctx(raw: Payload, decoded: Option<Packet>)

  datatype Decoding = Failed | Skipped | Made(ctx: Ctx)

  datatype Verdict = Verdict(cancel: bool, marked: bool, edit: Packet -> Packet)

  datatype Outcome = Sent(batch: seq<Payload>) | Refused

  /** A packet that may be forwarded without being decoded. */
  predicate PassesThrough(cfg: Config, id: nat) {
    !cfg.decodeAll && id !in cfg.clientDecode && (cfg.syncProtocol || cfg.clientIsLatest)
  }

  /** `decodeAndCreateContext`: a legacy packet is upgraded, and skipped if nothing is left of it. */
  function DecodeOne(cfg: Config, payload: Payload): Decoding {
    match cfg.header(payload)
    case None => Failed
    case Some(id) =>
      if id !in cfg.known then Failed
      else if PassesThrough(cfg, id) then Made(Ctx(payload, None))
      else
        match cfg.parse(payload)
        case None => Failed
        case Some(pk) =>
          if !cfg.syncProtocol && !cfg.clientIsLatest then
            var upgraded := cfg.convert(pk);
            if upgraded == [] then Skipped else Made(Ctx(payload, Some(upgraded[0])))
          else Made(Ctx(payload, Some(pk)))
  }

  /** All contexts of a batch, or nothing if any payload fails. */
  function Contexts(cfg: Config, payloads: seq<Payload>): Option<seq<Ctx>> {
    if payloads == [] then Some([]) else
    match Contexts(cfg, payloads[..|payloads| - 1])
    case None => None
    case Some(cs) =>
      match DecodeOne(cfg, payloads[|payloads| - 1])
      case Failed => None
      case Skipped => Some(cs)
      case Made(c) => Some(cs + [c])
  }

  function Edited(c: Ctx, v: Verdict): Option<Packet> {
    match c.decoded
    case None => None
    case Some(pk) => Some(v.edit(pk))
  }

  /** What an uncancelled context contributes; `None` is the panic on a missing decoded packet. */
  function Render(cfg: Config, c: Ctx, v: Verdict): Option<Payload> {
    if (c.decoded.None? || !v.marked) && cfg.clientIsLatest then Some(c.raw)
    else if c.decoded.None? then None
    else Some(cfg.marshal(cfg.syncProtocol, v.edit(c.decoded.value)))
  }

  function Forwarded(cfg: Config, cs: seq<Ctx>, vs: nat -> Verdict): Option<seq<Payload>> {
    if cs == [] then Some([]) else
    var k := |cs| - 1;
    match Forwarded(cfg, cs[..k], vs)
    case None => None
    case Some(out) =>
      if vs(k).cancel then Some(out) else
      match Render(cfg, cs[k], vs(k))
      case None => None
      case Some(p) => Some(out + [p])
  }

  /** `handleClientBatch` up to the write to the server. */
  function Handle(cfg: Config, payloads: seq<Payload>, vs: nat -> Verdict): Outcome {
    match Contexts(cfg, payloads)
    case None => Refused
    case Some(cs) =>
      match Forwarded(cfg, cs, vs)
      case None => Refused
      case Some(out) => Sent(out)
  }

  // ---- properties -------------------------------------------------------------------------

  /** The indices of the uncancelled contexts, ascending. */
  function Kept(vs: nat -> Verdict, n: nat): (ks: seq<nat>)
    ensures forall i :: 0 <= i < |ks| ==> ks[i] < n
    ensures forall i, j :: 0 <= i < j < |ks| ==> ks[i] < ks[j]
    ensures forall k: nat :: k in ks <==> k < n && !vs(k).cancel
  {
    if n == 0 then [] else Kept(vs, n - 1) + if vs(n - 1).cancel then [] else [n - 1]
  }

  /** `out` is what the contexts `ks` of the batch render to, in order. */
  ghost predicate IsImage(cfg: Config, cs: seq<Ctx>, vs: nat -> Verdict, ks: seq<nat>, out: seq<Payload>) {
    && |out| == |ks|
    && forall j :: 0 <= j < |ks| ==> ks[j] < |cs| && Render(cfg, cs[ks[j]], vs(ks[j])) == Some(out[j])
  }

  lemma ImageSnoc(cfg: Config, cs: seq<Ctx>, c: Ctx, vs: nat -> Verdict, ks: seq<nat>, out: seq<Payload>, k: nat, p: Payload)
    requires IsImage(cfg, cs, vs, ks, out) && k == |cs|
    ensures IsImage(cfg, cs + [c], vs, ks, out)
    ensures Render(cfg, c, vs(k)) == Some(p) ==> IsImage(cfg, cs + [c], vs, ks + [k], out + [p])
  {
    assert forall j :: 0 <= j < |ks| ==> (cs + [c])[ks[j]] == cs[ks[j]];
  }

  lemma ForwardedSnoc(cfg: Config, cs: seq<Ctx>, c: Ctx, vs: nat -> Verdict)
    requires Forwarded(cfg, cs + [c], vs).Some?
    ensures var k := |cs|; var all := Forwarded(cfg, cs + [c], vs).value;
      && Forwarded(cfg, cs, vs).Some?
      && if vs(k).cancel then all == Forwarded(cfg, cs, vs).value
         else Render(cfg, c, vs(k)).Some? && all == Forwarded(cfg, cs, vs).value + [Render(cfg, c, vs(k)).value]
  {
    assert (cs + [c])[..|cs|] == cs;
  }

  /** The forwarded list is the in-order image of the uncancelled contexts. */
  lemma {:induction false} ForwardedIsImage(cfg: Config, cs: seq<Ctx>, vs: nat -> Verdict)
    requires Forwarded(cfg, cs, vs).Some?
    ensures IsImage(cfg, cs, vs, Kept(vs, |cs|), Forwarded(cfg, cs, vs).value)
    decreases |cs|
  {
    if cs != [] {
      var k := |cs| - 1;
      var init, c := cs[..k], cs[k];
      assert cs == init + [c];
      ForwardedSnoc(cfg, init, c, vs);
      ForwardedIsImage(cfg, init, vs);
      var p := if vs(k).cancel then [] else Render(cfg, c, vs(k)).value;
      ImageSnoc(cfg, init, c, vs, Kept(vs, k), Forwarded(cfg, init, vs).value, k, p);
    }
  }

  /** Forwarding panics exactly when an uncancelled context of a legacy client has no decoded packet. */
  lemma {:induction false} ForwardPanicsIff(cfg: Config, cs: seq<Ctx>, vs: nat -> Verdict)
    ensures Forwarded(cfg, cs, vs).None? <==>
            !cfg.clientIsLatest && exists k: nat :: k < |cs| && !vs(k).cancel && cs[k].decoded.None?
    decreases |cs|
  {
    if cs != [] {
      var k := |cs| - 1;
      ForwardPanicsIff(cfg, cs[..k], vs);
      assert forall i: nat :: i < k ==> cs[..k][i] == cs[i];
      if Forwarded(cfg, cs[..k], vs).None? {
        var i: nat :| i < k && !vs(i).cancel && cs[..k][i].decoded.None?;
        assert cs[i].decoded.None?;
      } else if !vs(k).cancel && Render(cfg, cs[k], vs(k)).None? {
        assert cs[k].decoded.None?;
      }
    }
  }

  /** Every context comes from a payload of the batch, by `DecodeOne`. */
  lemma {:induction false} ContextsComeFromPayloads(cfg: Config, payloads: seq<Payload>)
    requires Contexts(cfg, payloads).Some?
    ensures var cs := Contexts(cfg, payloads).value;
      forall k :: 0 <= k < |cs| ==> cs[k].raw in payloads && DecodeOne(cfg, cs[k].raw) == Made(cs[k])
    decreases |payloads|
  {
    if payloads != [] {
      ContextsComeFromPayloads(cfg, payloads[..|payloads| - 1]);
      assert payloads[|payloads| - 1] in payloads;
    }
  }

  /**
    A legacy client without SyncProtocol: nothing it sent is forwarded raw. Every forwarded payload
    is a fresh encoding, in the latest protocol, of the upgraded packet of some payload of the batch.
   */
  lemma NoLegacyRawForwarded(cfg: Config, payloads: seq<Payload>, vs: nat -> Verdict, j: nat)
    requires !cfg.syncProtocol && !cfg.clientIsLatest
    requires Handle(cfg, payloads, vs).Sent? && j < |Handle(cfg, payloads, vs).batch|
    ensures exists p, k: nat :: p in payloads && cfg.parse(p).Some? && cfg.convert(cfg.parse(p).value) != []
              && Handle(cfg, payloads, vs).batch[j] == cfg.marshal(false, vs(k).edit(cfg.convert(cfg.parse(p).value)[0]))
  {
    var cs := Contexts(cfg, payloads).value;
    ForwardedIsImage(cfg, cs, vs);
    ContextsComeFromPayloads(cfg, payloads);
    var k := Kept(vs, |cs|)[j];
    assert DecodeOne(cfg, cs[k].raw) == Made(cs[k]);
    var p := cs[k].raw;
    assert p in payloads && cfg.convert(cfg.parse(p).value) != [];
    assert Handle(cfg, payloads, vs).batch[j] == cfg.marshal(false, vs(k).edit(cfg.convert(cfg.parse(p).value)[0]));
  }

  /** An up-to-date client: exactly the marked, decoded packets are re-encoded; the rest pass byte for byte. */
  lemma UpToDateClient(cfg: Config, payloads: seq<Payload>, vs: nat -> Verdict, j: nat)
    requires cfg.clientIsLatest && Contexts(cfg, payloads).Some?
    requires j < |Kept(vs, |Contexts(cfg, payloads).value|)|
    ensures Handle(cfg, payloads, vs).Sent? && j < |Handle(cfg, payloads, vs).batch|
    ensures var k := Kept(vs, |Contexts(cfg, payloads).value|)[j];
            var c := Contexts(cfg, payloads).value[k];
            Handle(cfg, payloads, vs).batch[j] ==
              if c.decoded.Some? && vs(k).marked then cfg.marshal(cfg.syncProtocol, vs(k).edit(c.decoded.value)) else c.raw
  {
    var cs := Contexts(cfg, payloads).value;
    ForwardPanicsIff(cfg, cs, vs);
    ForwardedIsImage(cfg, cs, vs);
    assert Kept(vs, |cs|)[j] in Kept(vs, |cs|);
  }

  /** With SyncProtocol no payload is skipped, so context `k` is payload `k`. */
  lemma {:induction false} SyncKeepsEvery(cfg: Config, payloads: seq<Payload>)
    requires cfg.syncProtocol && Contexts(cfg, payloads).Some?
    ensures var cs := Contexts(cfg, payloads).value;
      && |cs| == |payloads|
      && forall k :: 0 <= k < |cs| ==> DecodeOne(cfg, payloads[k]) == Made(cs[k])
    decreases |payloads|
  {
    if payloads != [] {
      SyncKeepsEvery(cfg, payloads[..|payloads| - 1]);
    }
  }

  /**
    A batch whose payloads all decode is refused if and only if SyncProtocol is on, the client is
    not on the latest version, and some uncancelled payload passes through undecoded. In particular
    it never is when SyncProtocol is off or the client is up to date.
   */
  lemma MissingPacketIff(cfg: Config, payloads: seq<Payload>, vs: nat -> Verdict)
    requires Contexts(cfg, payloads).Some?
    ensures Handle(cfg, payloads, vs).Refused? <==>
            cfg.syncProtocol && !cfg.clientIsLatest &&
            exists k: nat :: k < |payloads| && !vs(k).cancel && cfg.header(payloads[k]).Some? &&
                             !cfg.decodeAll && cfg.header(payloads[k]).value !in cfg.clientDecode
  {
    var cs := Contexts(cfg, payloads).value;
    ForwardPanicsIff(cfg, cs, vs);
    if cfg.syncProtocol {
      SyncKeepsEvery(cfg, payloads);
      assert forall k: nat :: k < |cs| ==>
        cfg.header(payloads[k]).Some? && (cs[k].decoded.None? <==> PassesThrough(cfg, cfg.header(payloads[k]).value));
    } else if !cfg.clientIsLatest {
      ContextsComeFromPayloads(cfg, payloads);
      assert forall k: nat :: k < |cs| ==> DecodeOne(cfg, cs[k].raw) == Made(cs[k]);
    }
  }

  /** Such a batch: one known packet from a legacy client under SyncProtocol, with no decoding configured. */
  lemma SyncedLegacyClientIsRefused()
    ensures var cfg := Config(true, false, false, {}, {0}, _ => Some(0), _ => None, pk => [pk], (_, pk) => []);
            Handle(cfg, [[0]], _ => Verdict(false, false, pk => pk)) == Refused
  {
    var cfg := Config(true, false, false, {}, {0}, _ => Some(0), _ => None, pk => [pk], (_, pk) => []);
    var payloads: seq<Payload> := [[0]];
    var vs := (_: nat) => Verdict(false, false, (pk: Packet) => pk);
    assert payloads[..|payloads| - 1] == [];
    assert Contexts(cfg, payloads) == Some([] + [Ctx([0], None)]);
    MissingPacketIff(cfg, payloads, vs);
    assert !vs(0).cancel && cfg.header(payloads[0]) == Some(0) && PassesThrough(cfg, 0);
  }

  // ---- the whole batch, from payloads to payloads -----------------------------------------

  /** A payload that is neither configured to be decoded nor has to be, being in a protocol the server understands. */
  predicate LeftRaw(cfg: Config, p: Payload) {
    && cfg.header(p).Some? && cfg.header(p).value !in cfg.clientDecode && !cfg.decodeAll
    && (cfg.clientIsLatest || cfg.syncProtocol)
  }

  /** A payload the batch does not fail on: of a known kind, and readable unless it is left raw. */
  predicate Acceptable(cfg: Config, p: Payload) {
    cfg.header(p).Some? && cfg.header(p).value in cfg.known && (LeftRaw(cfg, p) || cfg.parse(p).Some?)
  }

  /** A legacy packet of which the upgrade leaves nothing. */
  predicate Vanishes(cfg: Config, p: Payload) {
    !cfg.syncProtocol && !cfg.clientIsLatest && cfg.parse(p).Some? && cfg.convert(cfg.parse(p).value) == []
  }

  /** The packet shown to the processor: as parsed, except that a server without multi-version support gets the upgrade. */
  function PacketOf(cfg: Config, p: Payload): Option<Packet> {
    if LeftRaw(cfg, p) || cfg.parse(p).None? || Vanishes(cfg, p) then None
    else if cfg.syncProtocol || cfg.clientIsLatest then cfg.parse(p)
    else Some(cfg.convert(cfg.parse(p).value)[0])
  }

  /** The indices of the payloads that do not vanish, ascending. */
  function Lasting(cfg: Config, payloads: seq<Payload>): (ks: seq<nat>)
    ensures forall i :: 0 <= i < |ks| ==> ks[i] < |payloads|
    ensures forall i, j :: 0 <= i < j < |ks| ==> ks[i] < ks[j]
    ensures forall k: nat :: k in ks <==> k < |payloads| && !Vanishes(cfg, payloads[k])
  {
    if payloads == [] then [] else
    var n := |payloads| - 1;
    Lasting(cfg, payloads[..n]) + if Vanishes(cfg, payloads[n]) then [] else [n]
  }

  lemma DecodeOneMeans(cfg: Config, p: Payload)
    ensures var d := DecodeOne(cfg, p);
      if !Acceptable(cfg, p) then d == Failed
      else if Vanishes(cfg, p) then d == Skipped
      else d == Made(Ctx(p, PacketOf(cfg, p)))
  {
  }

  ghost predicate AllAcceptable(cfg: Config, payloads: seq<Payload>) {
    forall k :: 0 <= k < |payloads| ==> Acceptable(cfg, payloads[k])
  }

  /** A batch decodes if and only if every payload is acceptable. */
  lemma {:induction false} ContextsIff(cfg: Config, payloads: seq<Payload>)
    ensures Contexts(cfg, payloads).Some? <==> AllAcceptable(cfg, payloads)
    decreases |payloads|
  {
    if payloads != [] {
      var n := |payloads| - 1;
      ContextsIff(cfg, payloads[..n]);
      DecodeOneMeans(cfg, payloads[n]);
      assert AllAcceptable(cfg, payloads) <==> AllAcceptable(cfg, payloads[..n]) && Acceptable(cfg, payloads[n]);
    }
  }

  /** The contexts `cs` are those of the lasting payloads, in order. */
  ghost predicate OnePerLasting(cfg: Config, payloads: seq<Payload>, cs: seq<Ctx>) {
    var ks := Lasting(cfg, payloads);
    |cs| == |ks| && forall j :: 0 <= j < |ks| ==> cs[j] == Ctx(payloads[ks[j]], PacketOf(cfg, payloads[ks[j]]))
  }

  lemma LastingSnoc(cfg: Config, payloads: seq<Payload>, p: Payload)
    ensures Lasting(cfg, payloads + [p]) == Lasting(cfg, payloads) + if Vanishes(cfg, p) then [] else [|payloads|]
  {
    assert (payloads + [p])[..|payloads|] == payloads;
  }

  lemma OnePerLastingSnoc(cfg: Config, payloads: seq<Payload>, cs: seq<Ctx>, p: Payload)
    requires OnePerLasting(cfg, payloads, cs)
    ensures OnePerLasting(cfg, payloads + [p], if Vanishes(cfg, p) then cs else cs + [Ctx(p, PacketOf(cfg, p))])
  {
    LastingSnoc(cfg, payloads, p);
    var all, ks := payloads + [p], Lasting(cfg, payloads);
    forall j | 0 <= j < |ks| ensures cs[j] == Ctx(all[ks[j]], PacketOf(cfg, all[ks[j]])) {
      assert all[ks[j]] == payloads[ks[j]];
    }
  }

  /** The contexts of a batch that decodes. */
  lemma {:induction false} ContextsAre(cfg: Config, payloads: seq<Payload>)
    requires Contexts(cfg, payloads).Some?
    ensures OnePerLasting(cfg, payloads, Contexts(cfg, payloads).value)
    decreases |payloads|
  {
    if payloads != [] {
      var init, p := payloads[..|payloads| - 1], payloads[|payloads| - 1];
      assert payloads == init + [p];
      ContextsAre(cfg, init);
      DecodeOneMeans(cfg, p);
      OnePerLastingSnoc(cfg, init, Contexts(cfg, init).value, p);
    }
  }

  /** What is sent on for a payload: as it came for an up-to-date client unless marked, else a fresh encoding. */
  function Output(cfg: Config, p: Payload, v: Verdict): Option<Payload> {
    if cfg.clientIsLatest && (PacketOf(cfg, p).None? || !v.marked) then Some(p)
    else if PacketOf(cfg, p).None? then None
    else Some(cfg.marshal(cfg.syncProtocol, v.edit(PacketOf(cfg, p).value)))
  }

  /**
    End to end: a batch is sent if and only if every payload is acceptable and no uncancelled one of
    a legacy client is left raw; and then what is sent is, in order, the output of the payloads that
    neither vanish nor are cancelled.
   */
  lemma BatchOutcome(cfg: Config, payloads: seq<Payload>, vs: nat -> Verdict)
    ensures var r := Handle(cfg, payloads, vs); var ks := Lasting(cfg, payloads); var js := Kept(vs, |ks|);
      && (r.Sent? <==>
            && AllAcceptable(cfg, payloads)
            && (!cfg.clientIsLatest ==> forall j: nat :: j < |ks| && !vs(j).cancel ==> !LeftRaw(cfg, payloads[ks[j]])))
      && (r.Sent? ==>
            && |r.batch| == |js|
            && forall i :: 0 <= i < |js| ==> Some(r.batch[i]) == Output(cfg, payloads[ks[js[i]]], vs(js[i])))
  {
    ContextsIff(cfg, payloads);
    if Contexts(cfg, payloads).Some? {
      ContextsAre(cfg, payloads);
      var cs, ks := Contexts(cfg, payloads).value, Lasting(cfg, payloads);
      ForwardPanicsIff(cfg, cs, vs);
      forall j: nat | j < |ks| ensures cs[j].decoded.None? <==> LeftRaw(cfg, payloads[ks[j]]) {
        assert ks[j] in ks && Acceptable(cfg, payloads[ks[j]]);
      }
      if Forwarded(cfg, cs, vs).Some? {
        ForwardedIsImage(cfg, cs, vs);
      }
    }
  }

  /** A legacy client under SyncProtocol: everything sent is its own packet, edited, in its own protocol. */
  lemma SyncedLegacyClient(cfg: Config, payloads: seq<Payload>, vs: nat -> Verdict, j: nat)
    requires cfg.syncProtocol && !cfg.clientIsLatest && Handle(cfg, payloads, vs).Sent?
    requires j < |Kept(vs, |payloads|)|
    ensures var batch := Handle(cfg, payloads, vs).batch; var k := Kept(vs, |payloads|)[j];
      && |batch| == |Kept(vs, |payloads|)| && cfg.parse(payloads[k]).Some?
      && batch[j] == cfg.marshal(true, vs(k).edit(cfg.parse(payloads[k]).value))
  {
    SyncKeepsEvery(cfg, payloads);
    var cs := Contexts(cfg, payloads).value;
    ForwardedIsImage(cfg, cs, vs);
    var k := Kept(vs, |payloads|)[j];
    assert DecodeOne(cfg, payloads[k]) == Made(cs[k]);
  }
}
