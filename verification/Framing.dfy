/**
  Length-prefixed frames (protocol/writer.go, protocol/reader.go): a big-endian 32-bit
  length, then that many payload bytes.

  `ReadFrame` and `ReadAll` are the meaning of a byte stream; `Stream` is what a sequence
  of writes leaves behind. The classes are the source's reader and writer over a transport
  that returns short reads and fails at any point.
 */
module Framing {
  import opened Bytes

  type Payload = seq<Byte>

  datatype ReadResult = Got(payload: Payload, rest: seq<Byte>) | Short

  function Frame(p: Payload): (f: seq<Byte>)
    ensures |f| == 4 + |p|
  {
    Be32(|p|) + p
  }

  function ReadFrame(s: seq<Byte>): (r: ReadResult)
    ensures r.Got? ==> |r.rest| + 4 + |r.payload| == |s|
  {
    if |s| < 4 then Short else
    var n := FromBe32(s[..4]);
    if |s| - 4 < n then Short else Got(s[4..4 + n], s[4 + n..])
  }

  /** Every payload a reader gets out of `s` before its first error. */
  function ReadAll(s: seq<Byte>): seq<Payload>
    decreases |s|
  {
    match ReadFrame(s)
    case Short => []
    case Got(p, rest) => [p] + ReadAll(rest)
  }

  /** What is left in the stream when that first error happens. */
  function Leftover(s: seq<Byte>): seq<Byte>
    decreases |s|
  {
    match ReadFrame(s)
    case Short => s
    case Got(_, rest) => Leftover(rest)
  }

  function Stream(ps: seq<Payload>): seq<Byte> {
    if ps == [] then [] else Frame(ps[0]) + Stream(ps[1..])
  }

  ghost predicate Framable(ps: seq<Payload>) {
    forall i :: 0 <= i < |ps| ==> |ps[i]| < WORD
  }

  /** One frame is read back as written, with nothing of what follows it, exactly when its length fits 32 bits. */
  lemma FrameRoundTripIff(p: Payload, rest: seq<Byte>)
    ensures ReadFrame(Frame(p) + rest) == Got(p, rest) <==> |p| < WORD
  {
    var s := Frame(p) + rest;
    assert s[..4] == Be32(|p|);
    Be32RoundTrip(|p|);
    if |p| < WORD {
      assert s[4..4 + |p|] == p;
      assert s[4 + |p|..] == rest;
    }
  }

  /** The bytes of a frame: the length of the payload, first byte highest, then the payload. */
  lemma FrameShape(p: Payload)
    requires |p| < WORD
    ensures var f := Frame(p);
      && (f[0] as int) * 0x100_0000 + (f[1] as int) * 0x1_0000 + (f[2] as int) * 0x100 + f[3] == |p|
      && f[4..] == p
  {
    Be32RoundTrip(|p|);
  }

  /** Whatever reads as a frame is the frame of what was read. */
  lemma ReadFrameIsFrame(s: seq<Byte>)
    ensures ReadFrame(s).Got? ==> s == Frame(ReadFrame(s).payload) + ReadFrame(s).rest
  {
    if ReadFrame(s).Got? {
      Be32Inverse(s[..4]);
      assert s == s[..4] + s[4..];
    }
  }

  /** A proper prefix of one frame never reads as a frame. */
  lemma ProperPrefixIsShort(p: Payload, n: nat)
    requires |p| < WORD && n < |Frame(p)|
    ensures ReadFrame(Frame(p)[..n]) == Short
  {
    if 4 <= n {
      assert Frame(p)[..n][..4] == Be32(|p|);
      Be32RoundTrip(|p|);
    }
  }

  lemma {:induction false} StreamAppend(ps: seq<Payload>, qs: seq<Payload>)
    ensures Stream(ps + qs) == Stream(ps) + Stream(qs)
  {
    if ps == [] {
      assert ps + qs == qs;
    } else {
      StreamAppend(ps[1..], qs);
      assert (ps + qs)[1..] == ps[1..] + qs && (ps + qs)[0] == ps[0];
      assert Frame(ps[0]) + (Stream(ps[1..]) + Stream(qs)) == (Frame(ps[0]) + Stream(ps[1..])) + Stream(qs);
    }
  }

  /** Whole frames followed by an unreadable tail are read back as exactly those frames. */
  lemma {:induction false} ReadAllStream(ps: seq<Payload>, tail: seq<Byte>)
    requires Framable(ps) && ReadFrame(tail) == Short
    ensures ReadAll(Stream(ps) + tail) == ps && Leftover(Stream(ps) + tail) == tail
  {
    if ps == [] {
      assert Stream(ps) + tail == tail;
    } else {
      var rest := Stream(ps[1..]) + tail;
      assert Stream(ps) + tail == Frame(ps[0]) + rest;
      FrameRoundTripIff(ps[0], rest);
      ReadAllStream(ps[1..], tail);
    }
  }

  /** How many frames of `Stream(ps)` lie wholly inside its first `n` bytes. */
  function WholeFrames(ps: seq<Payload>, n: nat): (k: nat)
    ensures k <= |ps|
  {
    if ps == [] || n < |Frame(ps[0])| then 0 else 1 + WholeFrames(ps[1..], n - |Frame(ps[0])|)
  }

  /** That many frames fit, and one more does not. */
  lemma {:induction false} WholeFramesIsMost(ps: seq<Payload>, n: nat)
    ensures var k := WholeFrames(ps, n);
            |Stream(ps[..k])| <= n && (k < |ps| ==> n < |Stream(ps[..k + 1])|)
  {
    if ps == [] {
    } else if n < |Frame(ps[0])| {
      assert ps[..1][1..] == [];
    } else {
      var k := WholeFrames(ps[1..], n - |Frame(ps[0])|);
      WholeFramesIsMost(ps[1..], n - |Frame(ps[0])|);
      assert ps[..k + 1][1..] == ps[1..][..k];
      assert k + 1 < |ps| ==> ps[..k + 2][1..] == ps[1..][..k + 1];
    }
  }

  /**
    Prefix safety: a reader of any byte prefix of a frame stream returns exactly the frames
    that lie wholly inside the prefix, and then an error.
   */
  lemma {:induction false} PrefixSafety(ps: seq<Payload>, n: nat)
    requires Framable(ps) && n <= |Stream(ps)|
    ensures ReadAll(Stream(ps)[..n]) == ps[..WholeFrames(ps, n)]
    ensures ReadFrame(Leftover(Stream(ps)[..n])) == Short
  {
    if ps == [] {
    } else if n < |Frame(ps[0])| {
      assert Stream(ps)[..n] == Frame(ps[0])[..n];
      ProperPrefixIsShort(ps[0], n);
    } else {
      var m := n - |Frame(ps[0])|;
      var rest := Stream(ps[1..])[..m];
      assert Stream(ps)[..n] == Frame(ps[0]) + rest;
      FrameRoundTripIff(ps[0], rest);
      PrefixSafety(ps[1..], m);
      assert [ps[0]] + ps[1..][..WholeFrames(ps[1..], m)] == ps[..WholeFrames(ps, n)];
    }
  }

  /** A stream that is not cut short holds all its frames. */
  lemma {:induction false} UncutStreamIsWhole(ps: seq<Payload>)
    ensures WholeFrames(ps, |Stream(ps)|) == |ps|
  {
    if ps != [] {
      UncutStreamIsWhole(ps[1..]);
      assert |Stream(ps)| - |Frame(ps[0])| == |Stream(ps[1..])|;
    }
  }

  /** The transport side of a reader: a finite stream that hands out chunks of any size. */
  class Source {
    var input: seq<Byte>

    constructor (bytes: seq<Byte>)
      ensures input == bytes
    {
      input := bytes;
    }

    /** `io.Reader.Read`: at least one byte unless the stream has ended, possibly fewer than asked for. */
    method Read(want: nat) returns (chunk: seq<Byte>)
      requires want > 0
      modifies this
      ensures |chunk| <= want && old(input) == chunk + input
      ensures chunk == [] ==> old(input) == []
    {
      if input == [] {
        return [];
      }
      var n :| 1 <= n <= want && n <= |input|;
      chunk := input[..n];
      input := input[n..];
    }

    /** `io.ReadFull`: the result does not depend on how the transport cuts its chunks. */
    method ReadFull(buf: array<Byte>) returns (ok: bool)
      modifies this, buf
      ensures ok <==> buf.Length <= |old(input)|
      ensures ok ==> buf[..] == old(input)[..buf.Length] && input == old(input)[buf.Length..]
      ensures !ok ==> input == []
    {
      var got := 0;
      while got < buf.Length
        invariant 0 <= got <= buf.Length
        invariant got <= |old(input)| && input == old(input)[got..]
        invariant buf[..got] == old(input)[..got]
      {
        var chunk := Read(buf.Length - got);
        if chunk == [] {
          return false;
        }
        ghost var before := buf[..got];
        forall i | 0 <= i < |chunk| {
          buf[got + i] := chunk[i];
        }
        assert buf[..got + |chunk|] == before + chunk;
        got := got + |chunk|;
      }
      assert buf[..got] == buf[..];
      ok := true;
    }
  }

  class Reader {
    const source: Source

    constructor (source: Source)
      ensures this.source == source
    {
      this.source := source;
    }

    /** Returns the next frame's payload, or fails having drained a truncated stream. */
    method ReadPacket() returns (r: Option<Payload>)
      modifies source
      ensures match ReadFrame(old(source.input))
              case Got(p, rest) => r == Some(p) && source.input == rest
              case Short => r == None && source.input == []
    {
      var head := new Byte[4];
      var ok := source.ReadFull(head);
      if !ok {
        return None;
      }
      var n := FromBe32(head[..]);
      var pk := new Byte[n];
      ok := source.ReadFull(pk);
      if !ok {
        return None;
      }
      assert old(source.input)[4..][..n] == old(source.input)[4..4 + n];
      assert old(source.input)[4..][n..] == old(source.input)[4 + n..];
      r := Some(pk[..]);
    }
  }

  /** The transport side of a writer: a write may stop part-way, after which no byte is ever accepted again. */
  class Sink {
    var out: seq<Byte>
    var broken: bool

    constructor ()
      ensures out == [] && !broken
    {
      out := [];
      broken := false;
    }

    method Write(data: seq<Byte>) returns (ok: bool)
      modifies this
      ensures ok ==> !broken && out == old(out) + data
      ensures !ok ==> broken && exists n :: 0 <= n <= |data| && out == old(out) + data[..n]
      ensures old(broken) ==> !ok && out == old(out)
    {
      if broken {
        assert out == old(out) + data[..0];
        return false;
      }
      var n :| 0 <= n <= |data|;
      out := out + data[..n];
      ok := *;
      ok := ok && n == |data|;
      broken := !ok;
      assert out == old(out) + data[..n];
    }
  }

  class Writer {
    const sink: Sink
    const p: array<Byte>
    const pwf: array<Byte>

    ghost predicate Valid() {
      p.Length == 4 && pwf.Length == 5
    }

    constructor (sink: Sink)
      ensures Valid() && this.sink == sink && fresh(p) && fresh(pwf)
    {
      this.sink := sink;
      p := new Byte[4];
      pwf := new Byte[5];
    }

    method WriteParts(header: seq<Byte>, data: seq<Byte>) returns (ok: bool)
      modifies sink
      ensures ok ==> !sink.broken && sink.out == old(sink.out) + (header + data)
      ensures !ok ==> sink.broken && exists n :: 0 <= n <= |header + data| && sink.out == old(sink.out) + (header + data)[..n]
    {
      ghost var start := sink.out;
      ok := sink.Write(header);
      if !ok {
        ghost var n :| 0 <= n <= |header| && sink.out == start + header[..n];
        assert header[..n] == (header + data)[..n];
        return;
      }
      ok := sink.Write(data);
      if !ok {
        ghost var n :| 0 <= n <= |data| && sink.out == start + header + data[..n];
        assert start + header + data[..n] == start + (header + data)[..|header| + n];
      }
    }

    /** `binary.BigEndian.PutUint32` into a reusable scratch slice. */
    static method PutUint32(scratch: array<Byte>, n: nat)
      requires scratch.Length >= 4
      modifies scratch
      ensures scratch[..4] == Be32(n) && scratch[4..] == old(scratch[4..])
    {
      var word := Be32(n);
      scratch[0], scratch[1], scratch[2], scratch[3] := word[0], word[1], word[2], word[3];
    }

    /** Success appends exactly one frame; failure leaves a prefix of it and a broken transport. */
    method Write(data: Payload) returns (ok: bool)
      requires Valid()
      modifies sink, p
      ensures ok ==> !sink.broken && sink.out == old(sink.out) + Frame(data)
      ensures !ok ==> sink.broken && exists n :: 0 <= n <= |Frame(data)| && sink.out == old(sink.out) + Frame(data)[..n]
    {
      PutUint32(p, |data|);
      assert p[..] == Be32(|data|);
      ok := WriteParts(p[..], data);
      assert p[..] + data == Frame(data);
    }

    /** The same for a payload that starts with a flag byte, which the header carries. */
    method WriteWithFlags(flags: Byte, data: Payload) returns (ok: bool)
      requires Valid()
      modifies sink, pwf
      ensures ok ==> !sink.broken && sink.out == old(sink.out) + Frame([flags] + data)
      ensures !ok ==> sink.broken && exists n :: 0 <= n <= |Frame([flags] + data)| && sink.out == old(sink.out) + Frame([flags] + data)[..n]
    {
      PutUint32(pwf, |data| + 1);
      pwf[4] := flags;
      assert pwf[..] == Be32(|data| + 1) + [flags];
      ok := WriteParts(pwf[..], data);
      assert pwf[..] + data == Frame([flags] + data);
    }
  }
}
