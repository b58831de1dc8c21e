/** Bytes and big-endian numbers, as the wire formats use them. */
module Bytes {
  type Byte = x: int | 0 <= x < 256
  type Uint32 = x: int | 0 <= x < 0x1_0000_0000
  type Uint64 = x: int | 0 <= x < 0x1_0000_0000_0000_0000

  function Be32(n: Uint32): (b: seq<Byte>)
    ensures |b| == 4
  {
    [n / 256 / 256 / 256, n / 256 / 256 % 256, n / 256 % 256, n % 256]
  }

  function FromBe32(b: seq<Byte>): Uint32
    requires |b| == 4
  {
    ((b[0] as int * 256 + b[1] as int) * 256 + b[2] as int) * 256 + b[3] as int
  }

  lemma Be32RoundTrip(n: Uint32)
    ensures FromBe32(Be32(n)) == n
  {
    var a, b := n / 256, n / 256 / 256;
    assert n == a * 256 + n % 256 && a == b * 256 + a % 256 && b == b / 256 * 256 + b % 256;
  }

  lemma DivMod(q: int, r: int)
    requires 0 <= r < 256
    ensures (q * 256 + r) / 256 == q && (q * 256 + r) % 256 == r
  {
  }

  lemma FromBe32RoundTrip(b: seq<Byte>)
    requires |b| == 4
    ensures Be32(FromBe32(b)) == b
  {
    var x: int := b[0];
    var y: int := x * 256 + b[1];
    var z: int := y * 256 + b[2];
    DivMod(x, b[1]);
    DivMod(y, b[2]);
    DivMod(z, b[3]);
    assert FromBe32(b) == z * 256 + b[3];
  }

  function Be64(n: Uint64): (b: seq<Byte>)
    ensures |b| == 8
  {
    Be32(n / 0x1_0000_0000) + Be32(n % 0x1_0000_0000)
  }

  function FromBe64(b: seq<Byte>): Uint64
    requires |b| == 8
  {
    FromBe32(b[..4]) * 0x1_0000_0000 + FromBe32(b[4..])
  }

  lemma Be64RoundTrip(n: Uint64)
    ensures FromBe64(Be64(n)) == n
  {
    assert Be64(n)[..4] == Be32(n / 0x1_0000_0000);
    assert Be64(n)[4..] == Be32(n % 0x1_0000_0000);
    Be32RoundTrip(n / 0x1_0000_0000);
    Be32RoundTrip(n % 0x1_0000_0000);
  }

  function FromBe16(b: seq<Byte>): (n: nat)
    requires |b| == 2
    ensures n < 0x1_0000
  {
    b[0] as int * 256 + b[1] as int
  }
}
