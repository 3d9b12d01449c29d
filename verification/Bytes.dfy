/**
  Bytes, fixed-width integers on the wire and the one optional type the model shares.
  Lengths are written as unsigned 32-bit words, so a conversion from an unbounded
  length wraps modulo 2^32 exactly as Go's `uint32(n)` does.
 */
module Bytes {
  type Byte = x: int | 0 <= x < 256

  const WORD: nat := 0x1_0000_0000

  datatype Option<+T> = None | Some(value: T)

  /** `binary.BigEndian.PutUint32(_, uint32(n))` */
  function Be32(n: nat): (b: seq<Byte>)
    ensures |b| == 4
  {
    [n / 0x100_0000 % 256, n / 0x1_0000 % 256, n / 0x100 % 256, n % 256]
  }

  function FromBe32(b: seq<Byte>): (n: nat)
    requires |b| == 4
    ensures n < WORD
  {
    (b[0] as int) * 0x100_0000 + (b[1] as int) * 0x1_0000 + (b[2] as int) * 0x100 + b[3]
  }

  /** `binary.LittleEndian.PutUint32(_, uint32(n))` */
  function Le32(n: nat): (b: seq<Byte>)
    ensures |b| == 4
  {
    [n % 256, n / 0x100 % 256, n / 0x1_0000 % 256, n / 0x100_0000 % 256]
  }

  function FromLe32(b: seq<Byte>): (n: nat)
    requires |b| == 4
    ensures n < WORD
  {
    b[0] + (b[1] as int) * 0x100 + (b[2] as int) * 0x1_0000 + (b[3] as int) * 0x100_0000
  }

  lemma Digits(n: nat)
    ensures n % WORD ==
            n / 0x100_0000 % 256 * 0x100_0000 + n / 0x1_0000 % 256 * 0x1_0000 + n / 0x100 % 256 * 0x100 + n % 256
  {
    var a := n / 0x100;
    var b := a / 0x100;
    var c := b / 0x100;
    assert b == n / 0x1_0000;
    assert c == n / 0x100_0000;
    assert n == n % 256 + 0x100 * (a % 256) + 0x1_0000 * (b % 256) + 0x100_0000 * (c % 256) + WORD * (c / 256);
  }

  /** A big-endian word spells the length modulo 2^32, first byte highest, and reads back as that. */
  lemma Be32RoundTrip(n: nat)
    ensures var b := Be32(n);
      (b[0] as int) * 0x100_0000 + (b[1] as int) * 0x1_0000 + (b[2] as int) * 0x100 + b[3] == n % WORD
    ensures FromBe32(Be32(n)) == n % WORD
    ensures n < WORD ==> FromBe32(Be32(n)) == n
  {
    Digits(n);
  }

  /** A little-endian word spells it first byte lowest. */
  lemma Le32RoundTrip(n: nat)
    ensures var b := Le32(n);
      b[0] + (b[1] as int) * 0x100 + (b[2] as int) * 0x1_0000 + (b[3] as int) * 0x100_0000 == n % WORD
    ensures FromLe32(Le32(n)) == n % WORD
    ensures n < WORD ==> FromLe32(Le32(n)) == n
  {
    Digits(n);
  }

  /** Four bytes are the encoding of the word they spell. */
  lemma Be32Inverse(b: seq<Byte>)
    requires |b| == 4
    ensures Be32(FromBe32(b)) == b
  {
    var n := FromBe32(b);
    assert n / 0x100 == (b[0] as int) * 0x1_0000 + (b[1] as int) * 0x100 + b[2];
    assert n / 0x1_0000 == (b[0] as int) * 0x100 + b[1];
    assert n / 0x100_0000 == b[0];
  }

  lemma Regroup<T>(a: seq<T>, b: seq<T>, c: seq<T>)
    ensures (a + b) + c == a + (b + c)
  {
  }
}
