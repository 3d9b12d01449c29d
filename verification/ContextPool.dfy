/**
  The pooled-object side of the client pipeline: contexts are taken from a pool, filled, voted on,
  forwarded and returned. `Pipeline.HandleBatch` is `handleClientBatch` on these objects, tied to
  the value-level pipeline of module `ClientPipeline`; its invariant says that nothing in the pool
  carries a trace of an earlier batch and that no live context is in the pool.
 */
module ContextPool {
  import opened Bytes
  import opened Framing
  import opened ClientPipeline

  class PacketContext {
    var canceled: bool
    var modified: bool
    var raw: Option<Payload>
    var decoded: Option<Packet>

    constructor ()
      ensures Clean()
    {
      canceled, modified, raw, decoded := false, false, None, None;
    }

    predicate Clean()
      reads this
    {
      !canceled && !modified && raw.None? && decoded.None?
    }

    /** A live context that the processor has not seen yet. */
    predicate Holds(c: Ctx)
      reads this
    {
      !canceled && !modified && raw == Some(c.raw) && decoded == c.decoded
    }

    /** The same context after the processor's verdict. */
    predicate Judged(c: Ctx, v: Verdict)
      reads this
    {
      canceled == v.cancel && modified == v.marked && raw == Some(c.raw) && decoded == Edited(c, v)
    }
  }

  /** Live contexts are pairwise distinct objects. */
  ghost predicate Distinct(batch: seq<PacketContext>) {
    forall i, j :: 0 <= i < j < |batch| ==> batch[i] != batch[j]
  }

  class Pool {
    var free: set<PacketContext>

    constructor ()
      ensures Clean() && free == {}
    {
      free := {};
    }

    ghost predicate Clean()
      reads this, free
    {
      forall c :: c in free ==> c.Clean()
    }

    /** `NewPacketContext`: any pooled context or a new one; the flags are not touched. */
    method Take(raw: Payload, decoded: Option<Packet>) returns (ctx: PacketContext)
      requires Clean()
      modifies this, free
      ensures Clean() && ctx !in free && free == old(free) - {ctx}
      ensures ctx in old(free) || fresh(ctx)
      ensures ctx.Holds(Ctx(raw, decoded))
      ensures forall c :: c in old(free) && c != ctx ==> unchanged(c)
    {
      var reuse: bool := *;
      if reuse && free != {} {
        ctx :| ctx in free;
        free := free - {ctx};
      } else {
        ctx := new PacketContext();
      }
      ctx.raw := Some(raw);
      ctx.decoded := decoded;
    }

    /** `ReturnPacketContext` */
    method Return(ctx: PacketContext)
      requires Clean()
      modifies this, ctx
      ensures Clean() && free == old(free) + {ctx}
      ensures ctx.Clean()
    {
      ctx.raw := None;
      ctx.decoded := None;
      ctx.modified := false;
      ctx.canceled := false;
      free := free + {ctx};
    }
  }

  lemma {:induction false} FailureSticks(cfg: Config, payloads: seq<Payload>, i: nat)
    requires i <= |payloads| && Contexts(cfg, payloads[..i]).None?
    ensures Contexts(cfg, payloads).None?
    decreases |payloads| - i
  {
    if i == |payloads| {
      assert payloads[..i] == payloads;
    } else {
      assert payloads[..i + 1][..i] == payloads[..i];
      FailureSticks(cfg, payloads, i + 1);
    }
  }

  lemma {:induction false} PanicSticks(cfg: Config, cs: seq<Ctx>, vs: nat -> Verdict, i: nat)
    requires i <= |cs| && Forwarded(cfg, cs[..i], vs).None?
    ensures Forwarded(cfg, cs, vs).None?
    decreases |cs| - i
  {
    if i == |cs| {
      assert cs[..i] == cs;
    } else {
      assert cs[..i + 1][..i] == cs[..i];
      PanicSticks(cfg, cs, vs, i + 1);
    }
  }

  class Pipeline {
    const cfg: Config
    const pool: Pool

    constructor (cfg: Config, pool: Pool)
      ensures this.cfg == cfg && this.pool == pool
    {
      this.cfg := cfg;
      this.pool := pool;
    }

    /** A failed payload abandons the contexts made so far; they are never pooled. */
    method MakeContexts(payloads: seq<Payload>) returns (ok: bool, batch: seq<PacketContext>)
      requires pool.Clean()
      modifies pool, pool.free
      ensures pool.Clean() && pool.free <= old(pool.free)
      ensures ok <==> Contexts(cfg, payloads).Some?
      ensures forall c :: c in batch ==> c !in pool.free && (c in old(pool.free) || fresh(c))
      ensures Distinct(batch)
      ensures ok ==> var cs := Contexts(cfg, payloads).value;
                     |batch| == |cs| && forall k :: 0 <= k < |cs| ==> batch[k].Holds(cs[k])
    {
      batch := [];
      for i := 0 to |payloads|
        invariant pool.Clean() && pool.free <= old(pool.free)
        invariant forall c :: c in batch ==> c !in pool.free && (c in old(pool.free) || fresh(c))
        invariant Distinct(batch)
        invariant Contexts(cfg, payloads[..i]).Some?
        invariant var cs := Contexts(cfg, payloads[..i]).value;
                  |batch| == |cs| && forall k :: 0 <= k < |cs| ==> batch[k].Holds(cs[k])
      {
        assert payloads[..i + 1][..i] == payloads[..i];
        var d := DecodeOne(cfg, payloads[i]);
        match d
        case Failed =>
          FailureSticks(cfg, payloads, i + 1);
          return false, batch;
        case Skipped =>
        case Made(c) =>
          var ctx := pool.Take(c.raw, c.decoded);
          batch := batch + [ctx];
      }
      assert payloads[..|payloads|] == payloads;
      ok := true;
    }

    /** `Processor.ProcessClient`, whatever it decides. */
    method RunProcessor(batch: seq<PacketContext>, vs: nat -> Verdict, ghost cs: seq<Ctx>)
      requires Distinct(batch) && |batch| == |cs|
      requires forall k :: 0 <= k < |cs| ==> batch[k].Holds(cs[k])
      modifies batch
      ensures forall k :: 0 <= k < |cs| ==> batch[k].Judged(cs[k], vs(k))
    {
      for i := 0 to |batch|
        invariant forall k :: 0 <= k < i ==> batch[k].Judged(cs[k], vs(k))
        invariant forall k :: i <= k < |cs| ==> batch[k].Holds(cs[k])
      {
        var ctx := batch[i];
        ctx.canceled := vs(i).cancel;
        ctx.modified := vs(i).marked;
        if ctx.decoded.Some? {
          ctx.decoded := Some(vs(i).edit(ctx.decoded.value));
        }
      }
    }

    /** A context that is cancelled or forwarded raw goes back to the pool. */
    predicate Reusable(c: Ctx, v: Verdict) {
      v.cancel || ((c.decoded.None? || !v.marked) && cfg.clientIsLatest)
    }

    /** Forwards the survivors in order; a re-encoded context is dropped rather than pooled. */
    method ForwardAll(batch: seq<PacketContext>, vs: nat -> Verdict, ghost cs: seq<Ctx>) returns (out: Option<seq<Payload>>)
      requires pool.Clean() && Distinct(batch) && |batch| == |cs|
      requires forall c :: c in batch ==> c !in pool.free
      requires forall k :: 0 <= k < |cs| ==> batch[k].Judged(cs[k], vs(k))
      modifies pool, batch
      ensures pool.Clean() && old(pool.free) <= pool.free
      ensures forall c :: c in pool.free ==> c in old(pool.free) || c in batch
      ensures out == Forwarded(cfg, cs, vs)
      ensures out.Some? ==> forall k :: 0 <= k < |cs| ==>
                (batch[k] in pool.free <==> Reusable(cs[k], vs(k)))
    {
      var payloads: seq<Payload> := [];
      for i := 0 to |batch|
        invariant pool.Clean() && old(pool.free) <= pool.free
        invariant forall c :: c in pool.free ==> c in old(pool.free) || c in batch[..i]
        invariant forall k :: i <= k < |cs| ==> batch[k] !in pool.free && batch[k].Judged(cs[k], vs(k))
        invariant Forwarded(cfg, cs[..i], vs) == Some(payloads)
        invariant forall k :: 0 <= k < i ==>
                    (batch[k] in pool.free <==> Reusable(cs[k], vs(k)))
      {
        assert cs[..i + 1][..i] == cs[..i];
        var ctx := batch[i];
        assert ctx !in batch[..i];
        if ctx.canceled {
          pool.Return(ctx);
        } else if (ctx.decoded.None? || !ctx.modified) && cfg.clientIsLatest {
          payloads := payloads + [ctx.raw.value];
          pool.Return(ctx);
        } else if ctx.decoded.None? {
          PanicSticks(cfg, cs, vs, i + 1);
          return None;
        } else {
          payloads := payloads + [cfg.marshal(cfg.syncProtocol, ctx.decoded.value)];
        }
      }
      assert cs[..|batch|] == cs;
      out := Some(payloads);
    }

    /**
      One batch. The result is the value-level pipeline's, and the pool is clean again: it holds
      only contexts that were in it before or were made for this batch, none of them live.
     */
    method HandleBatch(payloads: seq<Payload>, vs: nat -> Verdict) returns (r: Outcome)
      requires pool.Clean()
      modifies pool, pool.free
      ensures pool.Clean()
      ensures forall c :: c in pool.free ==> c in old(pool.free) || fresh(c)
      ensures r == Handle(cfg, payloads, vs)
    {
      var ok, batch := MakeContexts(payloads);
      if !ok {
        return Refused;
      }
      ghost var cs := Contexts(cfg, payloads).value;
      RunProcessor(batch, vs, cs);
      var out := ForwardAll(batch, vs, cs);
      match out
      case None => r := Refused;
      case Some(p) => r := Sent(p);
    }

    /** Any number of batches: each is handled as if it were the only one ever. */
    method HandleBatches(batches: seq<seq<Payload>>, vs: nat -> nat -> Verdict) returns (rs: seq<Outcome>)
      requires pool.Clean()
      modifies pool, pool.free
      ensures pool.Clean() && |rs| == |batches|
      ensures forall i: nat :: i < |batches| ==> rs[i] == Handle(cfg, batches[i], vs(i))
    {
      rs := [];
      for i := 0 to |batches|
        invariant pool.Clean() && |rs| == i
        invariant forall c :: c in pool.free ==> c in old(pool.free) || fresh(c)
        invariant forall j: nat :: j < i ==> rs[j] == Handle(cfg, batches[j], vs(j))
      {
        var r := HandleBatch(batches[i], vs(i));
        rs := rs + [r];
      }
    }
  }
}
