/**
  The empty chunks sent around the player at a transfer (session/session.go:350-362): the position
  is truncated to 32 bits, shifted to chunk coordinates, and two nested loops cover radius 4.
 */
module ChunkSquare {
  const INT32_MAX: int := 0x7fff_ffff
  const INT32_MIN: int := -0x8000_0000

  predicate Int32(n: int) {
    INT32_MIN <= n <= INT32_MAX
  }

  /** `int32(x)` for a float in range: towards zero. */
  function Truncate(x: real): int {
    if x >= 0.0 then x.Floor else -((-x).Floor)
  }

  /** `n >> 4`: an arithmetic shift rounds down. */
  function Shift4(n: int): int {
    n / 16
  }

  function Chunk(x: real): int {
    Shift4(Truncate(x))
  }

  /** The chunk a position lies in. */
  function TrueChunk(x: real): int {
    x.Floor / 16
  }

  datatype ChunkPos = ChunkPos(x: int, z: int)

  ghost predicate InSquare(p: ChunkPos, cx: int, cz: int) {
    cx - 4 <= p.x <= cx + 4 && cz - 4 <= p.z <= cz + 4
  }

  /** The position of the `k`th chunk sent. */
  function Nth(cx: int, cz: int, k: nat): ChunkPos {
    ChunkPos(cx - 4 + k / 9, cz - 4 + k % 9)
  }

  lemma FloorBounds(x: real)
    ensures x < 0.0 ==> x.Floor <= Truncate(x) <= x.Floor + 1
    ensures x < 0.0 ==> (Truncate(x) == x.Floor <==> x == x.Floor as real)
    ensures x >= 0.0 ==> Truncate(x) == x.Floor
  {
    if x < 0.0 {
      var f := x.Floor;
      var g := (-x).Floor;
      assert f as real <= x < f as real + 1.0;
      assert g as real <= -x < g as real + 1.0;
      if x == f as real {
        assert (-f) as real == -x;
      } else {
        assert (-f - 1) as real == -(f as real) - 1.0;
      }
    }
  }

  /**
    Truncation picks the player's own chunk unless the position is a negative fraction just below a
    chunk border, where it picks the next one.
   */
  lemma CentreIff(x: real)
    ensures Chunk(x) == TrueChunk(x) <==> !(x < 0.0 && x != x.Floor as real && Truncate(x) % 16 == 0)
    ensures TrueChunk(x) <= Chunk(x) <= TrueChunk(x) + 1
  {
    FloorBounds(x);
  }

  /** The chunks sent include the one the player stands in, for every position. */
  lemma PlayerChunkIsSent(x: real, z: real)
    ensures InSquare(ChunkPos(TrueChunk(x), TrueChunk(z)), Chunk(x), Chunk(z))
  {
    CentreIff(x);
    CentreIff(z);
  }

  /**
    The nested loops: 81 distinct positions, exactly those of the square, with every 32-bit counter
    in range for every position that itself fits 32 bits.
   */
  method SendChunks(x: real, z: real) returns (sent: seq<ChunkPos>)
    requires Int32(Truncate(x)) && Int32(Truncate(z))
    ensures |sent| == 81
    ensures forall k :: 0 <= k < |sent| ==> sent[k] == ChunkPos(Chunk(x) - 4 + k / 9, Chunk(z) - 4 + k % 9)
    ensures forall i, j :: 0 <= i < j < |sent| ==> sent[i] != sent[j]
    ensures forall p :: p in sent <==> InSquare(p, Chunk(x), Chunk(z))
    ensures ChunkPos(TrueChunk(x), TrueChunk(z)) in sent
  {
    var cx, cz := Chunk(x), Chunk(z);
    PlayerChunkIsSent(x, z);
    sent := [];
    var u := cx - 4;
    while u <= cx + 4
      invariant cx - 4 <= u <= cx + 5 && Int32(u)
      invariant |sent| == 9 * (u - (cx - 4))
      invariant forall k :: 0 <= k < |sent| ==> sent[k] == Nth(cx, cz, k)
    {
      var w := cz - 4;
      while w <= cz + 4
        invariant cz - 4 <= w <= cz + 5 && Int32(w)
        invariant |sent| == 9 * (u - (cx - 4)) + (w - (cz - 4))
        invariant forall k :: 0 <= k < |sent| ==> sent[k] == Nth(cx, cz, k)
      {
        sent := sent + [ChunkPos(u, w)];
        w := w + 1;
      }
      u := u + 1;
    }
    forall p: ChunkPos | InSquare(p, cx, cz) ensures p in sent {
      var k := 9 * (p.x - (cx - 4)) + (p.z - (cz - 4));
      assert sent[k] == Nth(cx, cz, k);
    }
  }
}
