/** Node addresses (`NNAddress.h`).

    They travel in two encodings:
    - in every packet header, as a 16-bit word of four fields of four bits each;
    - in resend requests and failover reports, as a `float` payload, which holds every 16-bit
      word exactly, so that casting it back loses nothing; a payload that is no such word
      names no node. */
module Addresses {
  import opened Words

  type u4 = x: nat | x < 16

  datatype Address = Address(node: u4, layer: u4, cluster: u4, reserved: u4)

  /** Four fields, each masked to a nibble, packed from the most significant end. */
  function EncodeFields(node: nat, layer: nat, cluster: nat, reserved: nat): u16
  {
    4096 * (node % 16) + 256 * (layer % 16) + 16 * (cluster % 16) + reserved % 16
  }

  function Encode(a: Address): u16
  {
    EncodeFields(a.node, a.layer, a.cluster, a.reserved)
  }

  function ShiftRight(n: nat, k: nat): nat
  {
    if k == 0 then n else ShiftRight(n / 2, k - 1)
  }

  function Decode(raw: u16): Address
  {
    Address(ShiftRight(raw, 12) % 16, ShiftRight(raw, 8) % 16, ShiftRight(raw, 4) % 16, raw % 16)
  }

  lemma {:induction false} ShiftRightJoin(n: nat, low: nat, k: nat)
    requires low < Pow2(k)
    ensures ShiftRight(n * Pow2(k) + low, k) == n
    decreases k
  {
    if k > 0 {
      assert n * Pow2(k) == 2 * (n * Pow2(k - 1));
      assert (n * Pow2(k) + low) / 2 == n * Pow2(k - 1) + low / 2;
      ShiftRightJoin(n, low / 2, k - 1);
    }
  }

  /** A number is its upper part followed by four bits. */
  lemma Nibbles(raw: u16)
    ensures var low, mid, high := ShiftRight(raw, 4), ShiftRight(raw, 8), ShiftRight(raw, 12);
            && raw == 16 * low + raw % 16 && low == 16 * mid + low % 16 && mid == 16 * high + mid % 16
            && high % 16 == high
  {
    Pow2Values();
    var low, mid, high := raw / 16, raw / 16 / 16, raw / 16 / 16 / 16;
    ShiftRightJoin(low, raw % 16, 4);
    ShiftRightJoin(mid, 16 * (low % 16) + raw % 16, 8);
    Pow2Product(4, 8);
    ShiftRightJoin(high, 256 * (mid % 16) + 16 * (low % 16) + raw % 16, 12);
  }

  lemma SameNibble(q: nat, r: u4, q': nat, r': u4)
    requires 16 * q + r == 16 * q' + r'
    ensures q == q' && r == r'
  {
  }

  lemma EncodeJoin(a: Address)
    ensures Encode(a) == 16 * (16 * (16 * a.node + a.layer) + a.cluster) + a.reserved
  {
    assert a.node % 16 == a.node && a.layer % 16 == a.layer;
    assert a.cluster % 16 == a.cluster && a.reserved % 16 == a.reserved;
  }

  lemma DecodeEncode(a: Address)
    ensures Decode(Encode(a)) == a
  {
    var raw := Encode(a);
    EncodeJoin(a);
    Nibbles(raw);
    SameNibble(ShiftRight(raw, 4), raw % 16, 16 * (16 * a.node + a.layer) + a.cluster, a.reserved);
    SameNibble(ShiftRight(raw, 8), ShiftRight(raw, 4) % 16, 16 * a.node + a.layer, a.cluster);
    SameNibble(ShiftRight(raw, 12), ShiftRight(raw, 8) % 16, a.node, a.layer);
  }

  lemma EncodeDecode(raw: u16)
    ensures Encode(Decode(raw)) == raw
  {
    Nibbles(raw);
    var a := Decode(raw);
    EncodeJoin(a);
    assert ShiftRight(raw, 8) == 16 * a.node + a.layer;
    assert ShiftRight(raw, 4) == 16 * (16 * a.node + a.layer) + a.cluster;
  }

  /** The nibble fields survive the trip exactly when every one of them fits in 4 bits. */
  lemma FieldsSurvive(node: nat, layer: nat, cluster: nat, reserved: nat)
    ensures (var a := Decode(EncodeFields(node, layer, cluster, reserved));
             a.node == node && a.layer == layer && a.cluster == cluster && a.reserved == reserved)
            <==> (node < 16 && layer < 16 && cluster < 16 && reserved < 16)
  {
    var a := Address(node % 16, layer % 16, cluster % 16, reserved % 16);
    assert EncodeFields(node, layer, cluster, reserved) == Encode(a);
    DecodeEncode(a);
  }

  // ---- An unsigned 16-bit integer as a binary32 value (IEEE 754-2019, section 3.4) ----

  const FRACTION_BITS: nat := 23
  const EXPONENT_BIAS: nat := 127

  /** The position of the leading one. */
  function Log2(n: nat): (e: nat)
    requires n > 0
    ensures Pow2(e) <= n < 2 * Pow2(e)
  {
    if n == 1 then 0 else 1 + Log2(n / 2)
  }

  lemma LogBelow16(n: u16)
    requires n > 0
    ensures Log2(n) < 16
  {
    if Log2(n) >= 16 {
      Pow2Values();
      Pow2Mono(16, Log2(n));
    }
  }

  lemma {:induction false} MulLess(x: nat, y: nat, p: nat)
    requires x < y && p > 0
    ensures 0 <= x * p < y * p
  {
    if x > 0 {
      MulLess(x - 1, y - 1, p);
      assert x * p == (x - 1) * p + p && y * p == (y - 1) * p + p;
    } else if y > 1 {
      MulLess(0, y - 1, p);
      assert y * p == (y - 1) * p + p;
    }
  }

  lemma Distribute(x: nat, y: nat, p: nat)
    requires y <= x
    ensures (x - y) * p == x * p - y * p
  {
  }

  lemma FractionBound(n: nat, e: nat)
    requires e <= FRACTION_BITS && Pow2(e) <= n < 2 * Pow2(e)
    ensures 0 <= (n - Pow2(e)) * Pow2(FRACTION_BITS - e) < 0x80_0000
    ensures 0x80_0000 + (n - Pow2(e)) * Pow2(FRACTION_BITS - e) == n * Pow2(FRACTION_BITS - e)
  {
    var q, p := Pow2(e), Pow2(FRACTION_BITS - e);
    assert q * p == 0x80_0000 by {
      Pow2Product(e, FRACTION_BITS - e);
      Pow2Product(7, 16);
      Pow2Values();
    }
    MulLess(n - q, q, p);
    Distribute(n, q, p);
  }

  /** `static_cast<float>(n)`: exact, as every 16-bit integer fits the 24-bit significand. */
  function FloatOfU16(n: u16): Float
  {
    if n == 0 then 0
    else
      var e := Log2(n);
      LogBelow16(n);
      FractionBound(n, e);
      (EXPONENT_BIAS + e) * 0x80_0000 + (n - Pow2(e)) * Pow2(FRACTION_BITS - e)
  }

  datatype Cast = Exact(value: u16) | Undefined

  /** `static_cast<uint16_t>(f)`: truncation toward zero; C++ leaves the cast undefined
      when the truncated value does not fit. */
  function U16OfFloat(f: Float): Cast
  {
    var exponent := f / 0x80_0000 % 256;
    var significand := 0x80_0000 + f % 0x80_0000;
    if exponent < EXPONENT_BIAS then Exact(0)
    else if f >= 0x8000_0000 || exponent >= EXPONENT_BIAS + 16 then Undefined
    else
      var truncated := ShiftRight(significand, FRACTION_BITS - (exponent - EXPONENT_BIAS));
      if truncated < 0x1_0000 then Exact(truncated) else Undefined
  }

  lemma FloatFields(n: u16)
    requires n > 0
    ensures var e := Log2(n); var f := FloatOfU16(n);
            && e < 16 && f < 0x8000_0000
            && f / 0x80_0000 % 256 == EXPONENT_BIAS + e
            && 0x80_0000 + f % 0x80_0000 == n * Pow2(FRACTION_BITS - e)
  {
    var e := Log2(n);
    LogBelow16(n);
    FractionBound(n, e);
    var fraction := (n - Pow2(e)) * Pow2(FRACTION_BITS - e);
    var f := FloatOfU16(n);
    assert f == (EXPONENT_BIAS + e) * 0x80_0000 + fraction;
    assert f / 0x80_0000 == EXPONENT_BIAS + e;
  }

  /** As a binary32 number the cast is the integer itself: sign 0, biased exponent `E` and
      fraction `F` stand for (2^23 + F) * 2^(E - 127 - 23). */
  lemma FloatIsExact(n: u16)
    ensures FloatOfU16(0) == 0
    ensures n > 0 ==>
              var f := FloatOfU16(n);
              var exponent, fraction := f / 0x80_0000, f % 0x80_0000;
              127 <= exponent < 143 && (0x80_0000 + fraction) * Pow2(exponent - 127) == n * 0x80_0000
  {
    if n > 0 {
      FloatFields(n);
      var e := Log2(n);
      Pow2Product(FRACTION_BITS - e, e);
      Pow2Product(7, 16);
      Pow2Values();
      Regroup(n, Pow2(FRACTION_BITS - e), Pow2(e));
      assert FloatOfU16(n) / 0x80_0000 == EXPONENT_BIAS + e;
    }
  }

  lemma Regroup(x: nat, y: nat, z: nat)
    ensures (x * y) * z == x * (y * z)
  {
  }

  lemma {:induction false} ShiftRightTruncates(n: nat, k: nat)
    ensures ShiftRight(n, k) * Pow2(k) <= n < (ShiftRight(n, k) + 1) * Pow2(k)
    decreases k
  {
    if k > 0 {
      var q, p := ShiftRight(n, k), Pow2(k - 1);
      ShiftRightTruncates(n / 2, k - 1);
      Twofold(q, p);
      Twofold(q + 1, p);
    }
  }

  lemma Twofold(q: nat, p: nat)
    ensures q * (2 * p) == 2 * (q * p)
  {
  }

  /** The cast back truncates toward zero: below one it gives 0, and the values it is undefined
      for are the negative ones from -1 on and those from 2^16 on. */
  lemma CastTruncates(f: Float)
    ensures var exponent, significand := f / 0x80_0000 % 256, 0x80_0000 + f % 0x80_0000;
            && (exponent < 127 ==> U16OfFloat(f) == Exact(0))
            && (127 <= exponent && (exponent >= 143 || f >= 0x8000_0000) ==> U16OfFloat(f) == Undefined)
            && (127 <= exponent < 143 && f < 0x8000_0000 ==>
                  && U16OfFloat(f).Exact?
                  && var v, unit := U16OfFloat(f).value, Pow2(150 - exponent);
                     v * unit <= significand < (v + 1) * unit)
  {
    var exponent, significand := f / 0x80_0000 % 256, 0x80_0000 + f % 0x80_0000;
    if 127 <= exponent < 143 && f < 0x8000_0000 {
      ShiftRightTruncates(significand, 150 - exponent);
      SmallQuotient(ShiftRight(significand, 150 - exponent), exponent);
    }
  }

  lemma SmallQuotient(q: nat, exponent: nat)
    requires 127 <= exponent < 143 && q * Pow2(150 - exponent) < 0x100_0000
    ensures q < 0x1_0000
  {
    Pow2Values();
    Pow2Mono(8, 150 - exponent);
    Wider(q, 256, Pow2(150 - exponent));
  }

  lemma {:induction false} Wider(q: nat, a: nat, b: nat)
    requires a <= b
    ensures q * a <= q * b
  {
    if q > 0 {
      Wider(q - 1, a, b);
      assert q * a == (q - 1) * a + a && q * b == (q - 1) * b + b;
    }
  }

  /** An address named in a float payload is read back unchanged. */
  lemma FloatRoundTrip(n: u16)
    ensures U16OfFloat(FloatOfU16(n)) == Exact(n)
  {
    if n > 0 {
      FloatFields(n);
      ShiftRightJoin(n, 0, FRACTION_BITS - Log2(n));
    }
  }
}
