/**
  What the proxy puts inside a frame (server/conn.go:149-217, 328-350): a flag byte, then a
  body that is compressed when it is longer than 256 bytes. A batch body is a list of
  payloads, each with a little-endian 32-bit length.

  Compression is a parameter; the only thing ever assumed of it is that decoding undoes encoding.
 */
module Batch {
  import opened Bytes
  import opened Framing

  const FLAG_DECODE: Byte := 1
  const FLAG_COMPRESSED: Byte := 2
  const FLAG_BATCH: Byte := 4
  const COMPRESSION_THRESHOLD: nat := 256
  const MAX_BATCH_POOLED_SIZE: nat := 1024 * 1024

  datatype Codec = Codec(encode: seq<Byte> -> seq<Byte>, decode: seq<Byte> -> Option<seq<Byte>>)
  {
    ghost predicate Lossless() {
      forall b :: decode(encode(b)) == Some(b)
    }
  }

  /** `flags & bit != 0` for a power of two. */
  predicate HasFlag(flags: Byte, bit: Byte)
    requires bit > 0
  {
    flags / bit % 2 == 1
  }

  function EncodeBatch(ps: seq<Payload>): seq<Byte> {
    if ps == [] then [] else Le32(|ps[0]|) + ps[0] + EncodeBatch(ps[1..])
  }

  /** The split a downstream server applies; `None` if the lengths do not fit the bytes. */
  function SplitBatch(b: seq<Byte>): Option<seq<Payload>>
    decreases |b|
  {
    if b == [] then Some([])
    else if |b| < 4 then None
    else
      var n := FromLe32(b[..4]);
      if |b| - 4 < n then None else
      match SplitBatch(b[4 + n..])
      case None => None
      case Some(rest) => Some([b[4..4 + n]] + rest)
  }

  /** Flag byte and, above the threshold, compressed body: what every write hands to the framer. */
  function Pack(codec: Codec, flags: Byte, body: seq<Byte>): (f: Payload)
    requires flags + FLAG_COMPRESSED < 256
    ensures |f| >= 1
  {
    if |body| > COMPRESSION_THRESHOLD then [flags + FLAG_COMPRESSED] + codec.encode(body)
    else [flags] + body
  }

  datatype Unpacked = Body(flags: Byte, body: seq<Byte>) | Undecodable | Panic

  /** The front half of `Conn.read`: indexing the flag byte panics on an empty payload. */
  function Unpack(codec: Codec, f: Payload): Unpacked {
    if f == [] then Panic
    else if HasFlag(f[0], FLAG_COMPRESSED) then
      match codec.decode(f[1..])
      case None => Undecodable
      case Some(b) => Body(f[0], b)
    else Body(f[0], f[1..])
  }

  /** One call to `Write` or to `WriteBatch`. */
  datatype Message = Single(body: Payload) | Many(payloads: seq<Payload>)

  function Seal(codec: Codec, m: Message): Payload {
    match m
    case Single(p) => Pack(codec, 0, p)
    case Many(ps) => Pack(codec, FLAG_BATCH, EncodeBatch(ps))
  }

  /** The receiving side: test the flag bits, decompress, and split a batch. */
  function Open(codec: Codec, f: Payload): Option<Message> {
    match Unpack(codec, f)
    case Body(flags, b) =>
      if HasFlag(flags, FLAG_BATCH) then
        (match SplitBatch(b)
         case None => None
         case Some(ps) => Some(Many(ps)))
      else Some(Single(b))
    case _ => None
  }

  function SealAll(codec: Codec, ms: seq<Message>): (fs: seq<Payload>)
    ensures |fs| == |ms| && forall i :: 0 <= i < |ms| ==> fs[i] == Seal(codec, ms[i])
  {
    seq(|ms|, i requires 0 <= i < |ms| => Seal(codec, ms[i]))
  }

  function OpenAll(codec: Codec, fs: seq<Payload>): (ms: seq<Option<Message>>)
    ensures |ms| == |fs| && forall i :: 0 <= i < |fs| ==> ms[i] == Open(codec, fs[i])
  {
    seq(|fs|, i requires 0 <= i < |fs| => Open(codec, fs[i]))
  }

  /** The 32-bit bounds a message must respect to be representable at all. */
  ghost predicate Fits(codec: Codec, m: Message) {
    (m.Many? ==> Framable(m.payloads)) && |Seal(codec, m)| < WORD
  }

  lemma {:induction false} SplitUndoesEncode(ps: seq<Payload>)
    requires Framable(ps)
    ensures SplitBatch(EncodeBatch(ps)) == Some(ps)
  {
    if ps != [] {
      var b := EncodeBatch(ps);
      var n := |ps[0]|;
      assert b[..4] == Le32(n);
      Le32RoundTrip(n);
      assert b[4..4 + n] == ps[0];
      assert b[4 + n..] == EncodeBatch(ps[1..]);
      SplitUndoesEncode(ps[1..]);
      assert [ps[0]] + ps[1..] == ps;
    }
  }

  lemma {:induction false} EncodeBatchSnoc(ps: seq<Payload>, p: Payload)
    ensures EncodeBatch(ps + [p]) == EncodeBatch(ps) + Le32(|p|) + p
  {
    if ps == [] {
      assert (ps + [p])[1..] == [];
    } else {
      assert (ps + [p])[1..] == ps[1..] + [p];
      EncodeBatchSnoc(ps[1..], p);
    }
  }

  /** Two lists of representable payloads with the same batch encoding are the same list. */
  lemma BatchEncodingInjective(ps: seq<Payload>, qs: seq<Payload>)
    requires Framable(ps) && Framable(qs)
    requires EncodeBatch(ps) == EncodeBatch(qs)
    ensures ps == qs
  {
    SplitUndoesEncode(ps);
    SplitUndoesEncode(qs);
  }

  /** The four flag bytes that are ever written, bit by bit. */
  lemma FlagTable()
    ensures !HasFlag(0, FLAG_COMPRESSED) && !HasFlag(0, FLAG_BATCH) && !HasFlag(0, FLAG_DECODE)
    ensures HasFlag(2, FLAG_COMPRESSED) && !HasFlag(2, FLAG_BATCH) && !HasFlag(2, FLAG_DECODE)
    ensures !HasFlag(4, FLAG_COMPRESSED) && HasFlag(4, FLAG_BATCH) && !HasFlag(4, FLAG_DECODE)
    ensures HasFlag(6, FLAG_COMPRESSED) && HasFlag(6, FLAG_BATCH) && !HasFlag(6, FLAG_DECODE)
  {
  }

  /** Unpacking undoes packing on both sides of the compression threshold. */
  lemma UnpackUndoesPack(codec: Codec, flags: Byte, body: seq<Byte>)
    requires codec.Lossless() && (flags == 0 || flags == FLAG_BATCH)
    ensures var f := Pack(codec, flags, body);
      && Unpack(codec, f) == Body(f[0], body)
      && (f[0] == flags || f[0] == flags + FLAG_COMPRESSED)
  {
    FlagTable();
    var f := Pack(codec, flags, body);
    if |body| > COMPRESSION_THRESHOLD {
      assert f[1..] == codec.encode(body);
    } else {
      assert f[1..] == body;
    }
  }

  /** Opening undoes sealing; the decode bit is never set. */
  lemma OpenUndoesSeal(codec: Codec, m: Message)
    requires codec.Lossless()
    requires m.Many? ==> Framable(m.payloads)
    ensures Open(codec, Seal(codec, m)) == Some(m)
    ensures !HasFlag(Seal(codec, m)[0], FLAG_DECODE)
  {
    FlagTable();
    match m
    case Single(p) => UnpackUndoesPack(codec, 0, p);
    case Many(ps) =>
      UnpackUndoesPack(codec, FLAG_BATCH, EncodeBatch(ps));
      SplitUndoesEncode(ps);
  }

  /**
    The bytes that go into the frame: the flag byte says batch (4) or not and compressed (2) or not,
    and a body is compressed exactly if it is longer than 256 bytes.
   */
  lemma SealShape(codec: Codec, m: Message)
    ensures var f := Seal(codec, m); var body := if m.Many? then EncodeBatch(m.payloads) else m.body;
      && f != [] && f[0] == (if m.Many? then 4 else 0) + (if |body| > 256 then 2 else 0)
      && f[1..] == if |body| > 256 then codec.encode(body) else body
  {
  }

  /** A batch body is each payload behind its length, in order. */
  lemma {:induction false} BatchShape(ps: seq<Payload>, k: nat)
    requires k < |ps|
    ensures EncodeBatch(ps) == EncodeBatch(ps[..k]) + Le32(|ps[k]|) + ps[k] + EncodeBatch(ps[k + 1..])
  {
    if k > 0 {
      BatchShape(ps[1..], k - 1);
      assert ps[1..][..k - 1] == ps[..k][1..] && ps[1..][k..] == ps[k + 1..];
    } else {
      assert ps[..0] == [];
    }
  }

  /**
    End to end: any sequence of `Write` and `WriteBatch` calls, framed onto one stream and cut
    short at any byte, is received as exactly the messages whose frames are whole.
   */
  lemma StreamOfMessages(codec: Codec, ms: seq<Message>, n: nat)
    requires codec.Lossless()
    requires forall i :: 0 <= i < |ms| ==> Fits(codec, ms[i])
    requires n <= |Stream(SealAll(codec, ms))|
    ensures var fs := SealAll(codec, ms);
            var received := OpenAll(codec, ReadAll(Stream(fs)[..n]));
            && |received| == WholeFrames(fs, n)
            && (forall i :: 0 <= i < |received| ==> received[i] == Some(ms[i]))
            && (n == |Stream(fs)| ==> |received| == |ms|)
  {
    var fs := SealAll(codec, ms);
    forall i | 0 <= i < |fs| ensures |fs[i]| < WORD && Open(codec, fs[i]) == Some(ms[i]) {
      assert Fits(codec, ms[i]);
      OpenUndoesSeal(codec, ms[i]);
    }
    PrefixSafety(fs, n);
    UncutStreamIsWhole(fs);
  }

  /**
    A frame written with flags is never empty, so `read` reaches its flag byte without a
    panic on any prefix of such a stream; the panic needs a frame of length zero.
   */
  lemma FlagByteIsAlwaysThere(codec: Codec, ms: seq<Message>, n: nat, i: nat)
    requires forall k :: 0 <= k < |ms| ==> Fits(codec, ms[k])
    requires n <= |Stream(SealAll(codec, ms))|
    requires i < |ReadAll(Stream(SealAll(codec, ms))[..n])|
    ensures Unpack(codec, ReadAll(Stream(SealAll(codec, ms))[..n])[i]) != Panic
  {
    var fs := SealAll(codec, ms);
    forall k | 0 <= k < |fs| ensures |fs[k]| < WORD {
      assert Fits(codec, ms[k]);
    }
    PrefixSafety(fs, n);
    assert ReadAll(Stream(fs)[..n])[i] == Seal(codec, ms[i]);
  }

  /** `bytes.Buffer`: its capacity grows when a write does not fit. */
  class Buffer {
    var bytes: seq<Byte>
    var cap: nat

    constructor (cap: nat)
      ensures bytes == [] && this.cap == cap
    {
      bytes := [];
      this.cap := cap;
    }

    method Write(data: seq<Byte>)
      modifies this
      ensures bytes == old(bytes) + data
      ensures cap == old(cap) <==> |bytes| <= old(cap)
      ensures old(cap) <= cap && |bytes| <= cap
    {
      bytes := bytes + data;
      if cap < |bytes| {
        cap := 2 * cap + |bytes|;
      }
    }

    method Reset()
      modifies this
      ensures bytes == [] && cap == old(cap)
    {
      bytes := [];
    }
  }

  /** `sync.Pool` of buffers: a get returns any pooled buffer or a new one. */
  class BufferPool {
    const size: nat
    const keepsGrown: bool     // buffers that have grown are pooled too
    var free: set<Buffer>

    constructor (size: nat, keepsGrown: bool)
      ensures Clean() && free == {} && this.size == size && this.keepsGrown == keepsGrown
    {
      this.size := size;
      this.keepsGrown := keepsGrown;
      free := {};
    }

    predicate Poolable(b: Buffer)
      reads b
    {
      b.bytes == [] && (keepsGrown || b.cap == size)
    }

    /** Everything in the pool is empty and, unless grown buffers are kept, of the pooled size. */
    ghost predicate Clean()
      reads this, free
    {
      forall b :: b in free ==> Poolable(b)
    }

    method Get() returns (b: Buffer)
      requires Clean()
      modifies this
      ensures Clean() && b !in free && free == old(free) - {b}
      ensures b in old(free) || fresh(b)
      ensures Poolable(b)
    {
      var reuse: bool := *;
      if reuse && free != {} {
        b :| b in free;
        free := free - {b};
      } else {
        b := new Buffer(size);
      }
    }

    method Put(b: Buffer)
      requires Clean() && b !in free && Poolable(b)
      modifies this
      ensures Clean() && free == old(free) + {b}
    {
      free := free + {b};
    }
  }

  /** The write side of `server.Conn`, with the two buffer pools it draws on. */
  class Outbound {
    const writer: Writer
    const batches: BufferPool
    const packets: BufferPool
    const codec: Codec
    var closed: bool

    ghost predicate Valid()
      reads this, batches, batches.free, packets, packets.free
    {
      && writer.Valid() && batches.Clean() && packets.Clean()
      && batches.size == MAX_BATCH_POOLED_SIZE && !batches.keepsGrown && packets.keepsGrown
      && batches != packets && batches.free !! packets.free
    }

    constructor (writer: Writer, codec: Codec)
      requires writer.Valid()
      ensures Valid() && this.writer == writer && this.codec == codec && !closed
      ensures fresh(batches) && fresh(packets) && batches.free == packets.free == {}
    {
      this.writer := writer;
      this.codec := codec;
      batches := new BufferPool(MAX_BATCH_POOLED_SIZE, false);
      packets := new BufferPool(256, true);
      closed := false;
    }

    /** One sealed frame goes out, or a prefix of it on a broken transport. */
    ghost predicate Wrote(before: seq<Byte>, f: Payload, ok: bool)
      reads writer.sink
    {
      if ok then !writer.sink.broken && writer.sink.out == before + Frame(f)
      else writer.sink.broken && exists n :: 0 <= n <= |Frame(f)| && writer.sink.out == before + Frame(f)[..n]
    }

    method Write(p: Payload) returns (n: nat, ok: bool)
      requires Valid()
      modifies writer.sink, writer.pwf
      ensures Valid() && n == |p| && Wrote(old(writer.sink.out), Seal(codec, Single(p)), ok)
    {
      n := |p|;
      if |p| > COMPRESSION_THRESHOLD {
        ok := writer.WriteWithFlags(FLAG_COMPRESSED, codec.encode(p));
      } else {
        ok := writer.WriteWithFlags(0, p);
      }
    }

    /** Appends every payload with its length to an empty buffer. */
    static method Collect(payloads: seq<Payload>, buf: Buffer)
      requires buf.bytes == []
      modifies buf
      ensures buf.bytes == EncodeBatch(payloads)
      ensures buf.cap == old(buf.cap) <==> |EncodeBatch(payloads)| <= old(buf.cap)
    {
      for i := 0 to |payloads|
        invariant buf.bytes == EncodeBatch(payloads[..i])
        invariant old(buf.cap) <= buf.cap && |buf.bytes| <= buf.cap
        invariant buf.cap == old(buf.cap) <==> |buf.bytes| <= old(buf.cap)
      {
        var lenBuf := Le32(|payloads[i]|);
        buf.Write(lenBuf);
        buf.Write(payloads[i]);
        EncodeBatchSnoc(payloads[..i], payloads[i]);
        assert payloads[..i + 1] == payloads[..i] + [payloads[i]];
      }
      assert payloads[..|payloads|] == payloads;
    }

    /** The framed, possibly compressed form of what a pooled buffer holds. */
    method Flush(buf: Buffer, flags: Byte) returns (ok: bool)
      requires writer.Valid() && flags + FLAG_COMPRESSED < 256
      modifies writer.sink, writer.pwf
      ensures Wrote(old(writer.sink.out), Pack(codec, flags, buf.bytes), ok)
    {
      if |buf.bytes| > COMPRESSION_THRESHOLD {
        ok := writer.WriteWithFlags(flags + FLAG_COMPRESSED, codec.encode(buf.bytes));
      } else {
        ok := writer.WriteWithFlags(flags, buf.bytes);
      }
    }

    /**
      Writes one batch frame, except that a closed connection refuses and an empty list writes
      nothing. The pooled buffer starts empty, so the frame holds this batch's bytes only; it goes
      back to the pool empty if it has not grown, and is dropped otherwise.
     */
    method WriteBatch(payloads: seq<Payload>) returns (ok: bool)
      requires Valid()
      modifies writer.sink, writer.pwf, batches, batches.free
      ensures Valid()
      ensures closed ==> !ok && unchanged(writer.sink) && batches.free == old(batches.free)
      ensures !closed && payloads == [] ==> ok && unchanged(writer.sink) && batches.free == old(batches.free)
      ensures !closed && payloads != [] ==> Wrote(old(writer.sink.out), Seal(codec, Many(payloads)), ok)
      ensures forall b :: b in batches.free ==> b in old(batches.free) || fresh(b)
      ensures !closed && payloads != [] && |EncodeBatch(payloads)| <= 1024 * 1024 ==>
                old(batches.free) <= batches.free && batches.free != {}
      ensures |EncodeBatch(payloads)| > 1024 * 1024 ==> batches.free <= old(batches.free)
    {
      if closed {
        return false;
      }
      if payloads == [] {
        return true;
      }
      var buf := batches.Get();
      Collect(payloads, buf);
      ok := Flush(buf, FLAG_BATCH);
      if buf.cap == MAX_BATCH_POOLED_SIZE {
        buf.Reset();
        batches.Put(buf);
      }
    }

    /**
      Writes the marshalled header and body of one packet as one frame, unless the connection is
      closed. The buffer goes back to its pool empty whatever size it has grown to.
     */
    method WritePacket(header: seq<Byte>, body: seq<Byte>) returns (ok: bool)
      requires Valid()
      modifies writer.sink, writer.pwf, packets, packets.free
      ensures Valid()
      ensures closed ==> !ok && unchanged(writer.sink) && packets.free == old(packets.free)
      ensures !closed ==> Wrote(old(writer.sink.out), Seal(codec, Single(header + body)), ok)
      ensures forall b :: b in packets.free ==> b in old(packets.free) || fresh(b)
      ensures !closed ==> old(packets.free) <= packets.free && packets.free != {}
    {
      if closed {
        return false;
      }
      var buf := packets.Get();
      buf.Write(header);
      buf.Write(body);
      assert buf.bytes == header + body;
      ok := Flush(buf, 0);
      buf.Reset();
      packets.Put(buf);
    }
  }
}
