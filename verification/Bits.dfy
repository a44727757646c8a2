// The bit operations of the Base64 codecs (src/security/jwt_handler.cpp and
// src/security/password_hasher.cpp) as arithmetic. Shifting left is multiplication by a
// power of two, shifting right integer division; the packed values stay below 2^24, so that
// nothing wraps in a uint32_t.
module Bits {

  // Bitwise | and & of unsigned numbers.
  function Or(x: nat, y: nat): nat {
    if x == 0 && y == 0 then 0
    else 2 * Or(x / 2, y / 2) + (if x % 2 == 1 || y % 2 == 1 then 1 else 0)
  }

  function And(x: nat, y: nat): nat {
    if x == 0 || y == 0 then 0
    else 2 * And(x / 2, y / 2) + (if x % 2 == 1 && y % 2 == 1 then 1 else 0)
  }

  function Pow2(k: nat): nat { if k == 0 then 1 else 2 * Pow2(k - 1) }

  lemma {:induction false} OrZero(x: nat)
    ensures Or(x, 0) == x
  {
    if x != 0 {
      OrZero(x / 2);
    }
  }

  lemma {:induction false} OrIsSum(x: nat, y: nat, k: nat)
    requires y < Pow2(k)
    ensures Or(x * Pow2(k), y) == x * Pow2(k) + y
  {
    if k == 0 {
      OrZero(x);
    } else {
      var half := x * Pow2(k - 1);
      assert x * Pow2(k) == 2 * half;
      OrIsSum(x, y / 2, k - 1);
    }
  }

  lemma {:induction false} MaskIsRemainder(q: nat, r: nat, k: nat)
    requires r < Pow2(k)
    ensures And(q * Pow2(k) + r, Pow2(k) - 1) == r
  {
    if k > 0 {
      var x, half := q * Pow2(k) + r, q * Pow2(k - 1) + r / 2;
      assert q * Pow2(k) == 2 * (q * Pow2(k - 1));
      assert x / 2 == half && x % 2 == r % 2;
      assert (Pow2(k) - 1) / 2 == Pow2(k - 1) - 1 && (Pow2(k) - 1) % 2 == 1;
      MaskIsRemainder(q, r / 2, k - 1);
    }
  }

  lemma {:induction false} Powers()
    ensures Pow2(6) == 64 && Pow2(8) == 256 && Pow2(12) == 4096 && Pow2(16) == 65536 && Pow2(18) == 262144
  {
    assert Pow2(6) == 64;
    assert Pow2(12) == 4096;
  }

  lemma {:induction false} PackedBits(a: nat, b: nat, c: nat)
    requires a < 256 && b < 256 && c < 256
    ensures Or(a * 65536, b * 256) == a * 65536 + b * 256
    ensures Or(Or(a * 65536, b * 256), c) == a * 65536 + b * 256 + c < 0x100_0000
  {
    Powers();
    OrIsSum(a, b * 256, 16);
    OrIsSum(a * 256 + b, c, 8);
  }

  lemma {:induction false} PickedBits(v: nat)
    ensures And(v / 262144, 0x3F) == v / 262144 % 64 && And(v / 4096, 0x3F) == v / 4096 % 64
    ensures And(v / 64, 0x3F) == v / 64 % 64 && And(v, 0x3F) == v % 64
    ensures And(v / 256, 0xFF) == v / 256 % 256 && And(v, 0xFF) == v % 256
  {
    Powers();
    forall x: nat ensures And(x, 0x3F) == x % 64 && And(x, 0xFF) == x % 256 {
      MaskIsRemainder(x / 64, x % 64, 6);
      MaskIsRemainder(x / 256, x % 256, 8);
    }
  }

  lemma {:induction false} PackedSextets(a: nat, b: nat, c: nat, d: nat)
    requires a < 64 && b < 64 && c < 64 && d < 64
    ensures Or(Or(Or(a * 262144, b * 4096), c * 64), d) == a * 262144 + b * 4096 + c * 64 + d < 0x100_0000
  {
    Powers();
    OrIsSum(a, b * 4096, 18);
    OrIsSum(a * 64 + b, c * 64, 12);
    OrIsSum(a * 4096 + b * 64 + c, d, 6);
  }
}
