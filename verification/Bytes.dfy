/** Bytes and the big endian unsigned words that frames carry. */
module Bytes {

  type byte = x: int | 0 <= x < 256

  type Bytes = seq<byte>

  const WORD_LIMIT := 0x1_0000_0000

  /** Four bytes, most significant first (`struct.pack(">I", value)`). */
  function Pack(value: nat): (b: Bytes)
    requires value < WORD_LIMIT
    ensures |b| == 4
  {
    var (q1, q2) := (value / 0x100, value / 0x100 / 0x100);
    [q2 / 0x100, q2 % 0x100, q1 % 0x100, value % 0x100]
  }

  function Unpack(b: Bytes): (value: nat)
    requires |b| == 4
    ensures value < WORD_LIMIT
  {
    var b0: int, b1: int, b2: int, b3: int := b[0], b[1], b[2], b[3];
    ((b0 * 256 + b1) * 256 + b2) * 256 + b3
  }

  lemma UnpackPack(value: nat)
    requires value < WORD_LIMIT
    ensures Unpack(Pack(value)) == value
  {
    var q1 := value / 0x100;
    var q2 := q1 / 0x100;
    assert q1 == q2 * 256 + q1 % 256;
    assert q2 == q2 / 0x100 * 256 + q2 % 256;
  }

  lemma PackUnpack(b: Bytes)
    requires |b| == 4
    ensures Pack(Unpack(b)) == b
  {
    var b0: int, b1: int, b2: int, b3: int := b[0], b[1], b[2], b[3];
    var q2 := b0 * 256 + b1;
    var q1 := q2 * 256 + b2;
    var v := q1 * 256 + b3;
    assert v / 0x100 == q1 && v % 0x100 == b3;
    assert q1 / 0x100 == q2 && q1 % 0x100 == b2;
    assert q2 / 0x100 == b0 && q2 % 0x100 == b1;
  }

  /** `n` zero bytes. */
  function Zeros(n: nat): (z: Bytes)
    ensures |z| == n
    ensures forall i | 0 <= i < n :: z[i] == 0
  {
    seq(n, _ => 0)
  }
}
