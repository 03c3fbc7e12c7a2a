/** Unsigned integers as bytes.

    A number of `k` bytes is stored little-endian in a device's memory and in the
    structs of the setup protocol.

    Packets carry 4-byte words most significant byte first. */
module Bytes {
  import opened Words

  type Bytes = seq<u8>

  function Pow256(k: nat): (p: nat)
    ensures p > 0
  {
    if k == 0 then 1 else 256 * Pow256(k - 1)
  }

  /** The `k` least significant bytes of `n`, least significant first. */
  function Little(n: nat, k: nat): (bytes: Bytes)
    ensures |bytes| == k
  {
    if k == 0 then [] else [n % 256] + Little(n / 256, k - 1)
  }

  function Number(bytes: Bytes): nat
  {
    if bytes == [] then 0 else bytes[0] + 256 * Number(bytes[1..])
  }

  /** `n >> (8 * i)`. */
  function ShiftBytes(n: nat, i: nat): nat
  {
    if i == 0 then n else ShiftBytes(n / 256, i - 1)
  }

  /** Byte `i` is the lowest byte after `i` shifts. */
  lemma {:induction false} LittleAt(n: nat, k: nat, i: nat)
    requires i < k
    ensures Little(n, k)[i] == ShiftBytes(n, i) % 256
    decreases i
  {
    if i > 0 {
      LittleAt(n / 256, k - 1, i - 1);
    }
  }

  lemma {:induction false} NumberBound(bytes: Bytes)
    ensures Number(bytes) < Pow256(|bytes|)
  {
    if bytes != [] {
      NumberBound(bytes[1..]);
    }
  }

  lemma {:induction false} NumberLittle(n: nat, k: nat)
    requires n < Pow256(k)
    ensures Number(Little(n, k)) == n
    decreases k
  {
    if k > 0 {
      NumberLittle(n / 256, k - 1);
      assert Little(n, k)[1..] == Little(n / 256, k - 1);
    }
  }

  lemma {:induction false} LittleNumber(bytes: Bytes)
    ensures Little(Number(bytes), |bytes|) == bytes
  {
    if bytes != [] {
      LittleNumber(bytes[1..]);
      assert Number(bytes) % 256 == bytes[0] && Number(bytes) / 256 == Number(bytes[1..]);
      assert Little(Number(bytes), |bytes|) == [bytes[0]] + bytes[1..];
    }
  }

  // ---- Words of four bytes ----

  function Reversed4(b: Bytes): (r: Bytes)
    requires |b| == 4
    ensures |r| == 4
  {
    [b[3], b[2], b[1], b[0]]
  }

  /** A word as it travels. */
  function Big(w: u32): (bytes: Bytes)
    ensures |bytes| == 4
  {
    Reversed4(Little(w, 4))
  }

  function WordAt(b: Bytes): (w: u32)
    requires |b| == 4
    ensures w == Number(Reversed4(b))
  {
    var r := Reversed4(b);
    FourBytes(r);
    Number(r)
  }

  lemma FourBytes(r: Bytes)
    requires |r| == 4
    ensures Number(r) == r[0] as int + 256 * (r[1] as int) + 0x1_0000 * (r[2] as int) + 0x100_0000 * (r[3] as int)
    ensures Number(r) < 0x1_0000_0000
  {
    assert r[1..][1..] == r[2..] && r[2..][1..] == r[3..] && r[3..][1..] == [];
    assert Number(r) == r[0] + 256 * Number(r[1..]);
    assert Number(r[1..]) == r[1] + 256 * Number(r[2..]);
    assert Number(r[2..]) == r[2] + 256 * Number(r[3..]);
    assert Number(r[3..]) == r[3] + 256 * Number([]);
  }

  lemma WordBig(w: u32)
    ensures WordAt(Big(w)) == w
  {
    assert Reversed4(Big(w)) == Little(w, 4);
    assert Pow256(4) == 256 * Pow256(3) && Pow256(2) == 0x1_0000;
    NumberLittle(w, 4);
  }

  lemma BigWord(b: Bytes)
    requires |b| == 4
    ensures Big(WordAt(b)) == b
  {
    LittleNumber(Reversed4(b));
    assert Reversed4(Reversed4(b)) == b;
  }

  /** The four bytes by division, as the firmware shifts them out. */
  lemma LittleFour(w: u32)
    ensures Little(w, 4) == [w % 256, w / 256 % 256, w / 256 / 256 % 256, w / 256 / 256 / 256]
  {
    assert Little(w / 256 / 256 / 256 / 256, 0) == [];
    assert Little(w / 256 / 256 / 256, 1) == [w / 256 / 256 / 256 % 256];
    assert Little(w / 256 / 256, 2) == [w / 256 / 256 % 256, w / 256 / 256 / 256 % 256];
    assert Little(w / 256, 3) == [w / 256 % 256, w / 256 / 256 % 256, w / 256 / 256 / 256 % 256];
    assert w / 256 / 256 / 256 < 256;
  }
}
