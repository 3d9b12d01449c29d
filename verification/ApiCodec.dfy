/**
  The API service's packets (api/client.go, api/packet): a frame holds a little-endian packet ID
  and a body of length-prefixed strings. Decoding ignores every read error, so it is total:
  a truncated string comes out padded with zero bytes.
 */
module ApiCodec {
  import opened Bytes
  import opened Framing
  import Batch

  /** A Go string: its bytes. */
  type Text = seq<Byte>

  datatype Packet =
    | ConnectionRequest(token: Text)
    | ConnectionResponse(response: Byte)
    | Kick(reason: Text, username: Text)
    | Transfer(addr: Text, username: Text)

  function Id(p: Packet): nat {
    match p
    case ConnectionRequest(_) => 0
    case ConnectionResponse(_) => 1
    case Kick(_, _) => 2
    case Transfer(_, _) => 3
  }

  function WriteString(s: Text): seq<Byte> {
    Le32(|s|) + s
  }

  datatype Read = Read(text: Text, rest: seq<Byte>)

  function Zeros(n: nat): (z: seq<Byte>)
    ensures |z| == n
  {
    seq(n, _ => 0)
  }

  /** `ReadString`: the length is 0 if it cannot be read, and missing bytes stay zero. */
  function ReadString(buf: seq<Byte>): Read {
    if |buf| < 4 then Read([], []) else
    var n := FromLe32(buf[..4]);
    var k := if n <= |buf| - 4 then n else |buf| - 4;
    Read(buf[4..4 + k] + Zeros(n - k), buf[4 + k..])
  }

  function Body(p: Packet): seq<Byte> {
    match p
    case ConnectionRequest(t) => WriteString(t)
    case ConnectionResponse(r) => [r]
    case Kick(r, u) => WriteString(r) + WriteString(u)
    case Transfer(a, u) => WriteString(a) + WriteString(u)
  }

  function Encode(p: Packet): Payload {
    Le32(Id(p)) + Body(p)
  }

  /** The response byte is read into a copy, so a decoded ConnectionResponse always says 0. */
  function DecodeBody(id: nat, b: seq<Byte>): Option<Packet> {
    if id == 0 then Some(ConnectionRequest(ReadString(b).text))
    else if id == 1 then Some(ConnectionResponse(0))
    else if id == 2 then Some(Kick(ReadString(b).text, ReadString(ReadString(b).rest).text))
    else if id == 3 then Some(Transfer(ReadString(b).text, ReadString(ReadString(b).rest).text))
    else None
  }

  function Decode(f: Payload): Option<Packet> {
    if |f| < 4 then None else DecodeBody(FromLe32(f[..4]), f[4..])
  }

  function EncodeAll(ps: seq<Packet>): (fs: seq<Payload>)
    ensures |fs| == |ps| && forall i :: 0 <= i < |ps| ==> fs[i] == Encode(ps[i])
  {
    seq(|ps|, i requires 0 <= i < |ps| => Encode(ps[i]))
  }

  function DecodeAll(fs: seq<Payload>): (ps: seq<Option<Packet>>)
    ensures |ps| == |fs| && forall i :: 0 <= i < |fs| ==> ps[i] == Decode(fs[i])
  {
    seq(|fs|, i requires 0 <= i < |fs| => Decode(fs[i]))
  }

  lemma Flatten<T>(a: seq<T>, b: seq<T>, c: seq<T>, d: seq<T>, e: seq<T>)
    ensures a + (b + c) == a + b + c
    ensures a + ((b + c) + (d + e)) == a + b + c + d + e
  {
  }

  /** The bytes of a packet: its ID, first byte lowest, then its fields, each string behind its length. */
  lemma EncodeShape(p: Packet)
    ensures Encode(p) ==
      match p
      case ConnectionRequest(t) => [0, 0, 0, 0] + Le32(|t|) + t
      case ConnectionResponse(r) => [1, 0, 0, 0] + [r]
      case Kick(r, u) => [2, 0, 0, 0] + Le32(|r|) + r + Le32(|u|) + u
      case Transfer(a, u) => [3, 0, 0, 0] + Le32(|a|) + a + Le32(|u|) + u
  {
    var id := Le32(Id(p));
    match p
    case ConnectionRequest(t) =>
      assert id == [0, 0, 0, 0];
      Flatten(id, Le32(|t|), t, [], []);
    case ConnectionResponse(_) =>
      assert id == [1, 0, 0, 0];
    case Kick(r, u) =>
      assert id == [2, 0, 0, 0];
      Flatten(id, Le32(|r|), r, Le32(|u|), u);
    case Transfer(a, u) =>
      assert id == [3, 0, 0, 0];
      Flatten(id, Le32(|a|), a, Le32(|u|), u);
  }

  /** A string is read back from in front of anything exactly when its length fits 32 bits. */
  lemma StringRoundTripIff(s: Text, rest: seq<Byte>)
    ensures ReadString(WriteString(s) + rest) == Read(s, rest) <==> |s| < WORD
  {
    var b := WriteString(s) + rest;
    assert b[..4] == Le32(|s|);
    Le32RoundTrip(|s|);
    if |s| < WORD {
      assert b[4..4 + |s|] + Zeros(0) == s;
      assert b[4 + |s|..] == rest;
    }
  }

  /** The frame's length bound already bounds every string in it. */
  lemma DecodeUndoesEncodeIff(p: Packet)
    requires |Encode(p)| < WORD
    ensures Decode(Encode(p)) == Some(p) <==> (p.ConnectionResponse? ==> p.response == 0)
  {
    var f := Encode(p);
    assert f[..4] == Le32(Id(p)) && f[4..] == Body(p);
    Le32RoundTrip(Id(p));
    match p
    case ConnectionRequest(t) =>
      assert Body(p) == WriteString(t) + [];
      StringRoundTripIff(t, []);
    case ConnectionResponse(_) =>
    case Kick(r, u) =>
      StringRoundTripIff(r, WriteString(u));
      assert WriteString(u) == WriteString(u) + [];
      StringRoundTripIff(u, []);
    case Transfer(a, u) =>
      StringRoundTripIff(a, WriteString(u));
      assert WriteString(u) == WriteString(u) + [];
      StringRoundTripIff(u, []);
  }

  /** Reading a string never fails: a short length is 0, and missing bytes come out as zeros. */
  lemma TruncatedString(b: seq<Byte>)
    ensures var r := ReadString(b);
      && (|b| < 4 ==> r == Read([], []))
      && (|b| >= 4 ==>
            && |r.text| == FromLe32(b[..4])
            && (forall k :: 0 <= k < |r.text| ==> r.text[k] == if 4 + k < |b| then b[4 + k] else 0)
            && r.rest == if 4 + |r.text| <= |b| then b[4 + |r.text|..] else [])
  {
  }

  /** Decoding fails exactly on a payload without a packet ID or with an unknown one. */
  lemma DecodeFailsIff(f: Payload)
    ensures Decode(f).None? <==> |f| < 4 || FromLe32(f[..4]) > 3
    ensures Decode(f).Some? ==> Id(Decode(f).value) == FromLe32(f[..4])
  {
  }

  /** What a packet becomes on the other side. */
  function Received(p: Packet): Packet {
    if p.ConnectionResponse? then ConnectionResponse(0) else p
  }

  lemma DecodeGives(p: Packet)
    requires |Encode(p)| < WORD
    ensures Decode(Encode(p)) == Some(Received(p))
  {
    DecodeUndoesEncodeIff(p);
    if p.ConnectionResponse? {
      assert Encode(p)[..4] == Le32(1);
      Le32RoundTrip(1);
    }
  }

  /**
    Any sequence of packets written through one client and cut short at any byte is read back as
    exactly the packets whose frames are whole, except that a ConnectionResponse loses its code.
   */
  lemma ApiStream(ps: seq<Packet>, n: nat)
    requires forall i :: 0 <= i < |ps| ==> |Encode(ps[i])| < WORD
    requires n <= |Stream(EncodeAll(ps))|
    ensures var fs := EncodeAll(ps);
            var got := DecodeAll(ReadAll(Stream(fs)[..n]));
            && |got| == WholeFrames(fs, n)
            && (forall i :: 0 <= i < |got| ==> got[i] == Some(Received(ps[i])))
            && (n == |Stream(fs)| ==> |got| == |ps|)
  {
    var fs := EncodeAll(ps);
    forall i | 0 <= i < |fs|
      ensures |fs[i]| < WORD && Decode(fs[i]) == Some(Received(ps[i]))
    {
      assert |Encode(ps[i])| < WORD;
      DecodeGives(ps[i]);
    }
    PrefixSafety(fs, n);
    UncutStreamIsWhole(fs);
  }

  /** Some prefix of `f`, possibly all of it, was appended. */
  ghost predicate Truncated(before: seq<Byte>, f: seq<Byte>, after: seq<Byte>) {
    exists n :: 0 <= n <= |f| && after == before + f[..n]
  }

  /** `api.Client`: encodes into a pooled buffer and decodes from a consumed one. */
  class Client {
    const writer: Writer
    const reader: Reader
    const pool: Batch.BufferPool

    /** Every pooled buffer is empty. */
    ghost predicate Valid()
      reads pool, pool.free
    {
      writer.Valid() && pool.Clean() && pool.keepsGrown
    }

    constructor (writer: Writer, reader: Reader)
      requires writer.Valid()
      ensures Valid() && this.writer == writer && this.reader == reader && fresh(pool) && pool.free == {}
    {
      this.writer := writer;
      this.reader := reader;
      pool := new Batch.BufferPool(128, true);
    }

    static method PutString(buf: Batch.Buffer, s: Text)
      modifies buf
      ensures buf.bytes == old(buf.bytes) + WriteString(s)
    {
      buf.Write(Le32(|s|));
      buf.Write(s);
    }

    /** Consumes a string from the front of `buf`. */
    static method TakeString(buf: Batch.Buffer) returns (s: Text)
      modifies buf
      ensures Read(s, buf.bytes) == ReadString(old(buf.bytes))
    {
      var n := 0;
      if |buf.bytes| < 4 {
        buf.bytes := [];
      } else {
        n := FromLe32(buf.bytes[..4]);
        buf.bytes := buf.bytes[4..];
      }
      var unread := buf.bytes;
      var data := new Byte[n](_ => 0);
      var k := if n <= |unread| then n else |unread|;
      for i := 0 to k
        invariant data[..] == unread[..i] + Zeros(n - i)
      {
        data[i] := unread[i];
      }
      s := data[..];
      buf.bytes := unread[k..];
    }

    static method PutTwo(buf: Batch.Buffer, s: Text, t: Text)
      modifies buf
      ensures buf.bytes == old(buf.bytes) + (WriteString(s) + WriteString(t))
    {
      ghost var a, b, c := buf.bytes, WriteString(s), WriteString(t);
      PutString(buf, s);
      PutString(buf, t);
      assert (a + b) + c == a + (b + c);
    }

    static method PutBody(buf: Batch.Buffer, p: Packet)
      modifies buf
      ensures buf.bytes == old(buf.bytes) + Body(p)
    {
      match p {
        case ConnectionRequest(t) => PutString(buf, t);
        case ConnectionResponse(r) => buf.Write([r]);
        case Kick(r, u) => PutTwo(buf, r, u);
        case Transfer(a, u) => PutTwo(buf, a, u);
      }
    }

    static method EncodeInto(buf: Batch.Buffer, p: Packet)
      requires buf.bytes == []
      modifies buf
      ensures buf.bytes == Encode(p)
    {
      buf.Write(Le32(Id(p)));
      assert buf.bytes == Le32(Id(p));
      PutBody(buf, p);
    }

    /** Success appends one frame with the packet; the buffer goes back to the pool empty. */
    method WritePacket(p: Packet) returns (ok: bool)
      requires Valid()
      modifies pool, pool.free, writer.sink, writer.p
      ensures Valid()
      ensures ok ==> writer.sink.out == old(writer.sink.out) + Frame(Encode(p))
      ensures !ok ==> writer.sink.broken && Truncated(old(writer.sink.out), Frame(Encode(p)), writer.sink.out)
      ensures old(pool.free) <= pool.free && pool.free != {}
    {
      var buf := pool.Get();
      EncodeInto(buf, p);
      ok := writer.Write(buf.bytes);
      buf.Reset();
      pool.Put(buf);
    }

    method ReadPacket() returns (r: Option<Packet>)
      modifies reader.source
      ensures match ReadFrame(old(reader.source.input))
              case Got(f, rest) => r == Decode(f) && reader.source.input == rest
              case Short => r == None && reader.source.input == []
    {
      var payload := reader.ReadPacket();
      if payload.None? || |payload.value| < 4 {
        return None;
      }
      var id := FromLe32(payload.value[..4]);
      var buf := new Batch.Buffer(0);
      buf.bytes := payload.value[4..];
      if id == 0 {
        var t := TakeString(buf);
        r := Some(ConnectionRequest(t));
      } else if id == 1 {
        r := Some(ConnectionResponse(0));
      } else if id == 2 {
        var reason := TakeString(buf);
        var user := TakeString(buf);
        r := Some(Kick(reason, user));
      } else if id == 3 {
        var addr := TakeString(buf);
        var user := TakeString(buf);
        r := Some(Transfer(addr, user));
      } else {
        r := None;
      }
    }
  }
}
