/**
 * Machine-level types and constants shared by the model of the rANS
 * statistics, coding tables and benchmark driver.
 */
module RansTypes {

  /** A value of the C++ type `uint32_t`. */
  type U32 = x: int | 0 <= x < 0x1_0000_0000

  /** The largest value of the C++ type `int` (32 bits). */
  const IntMax: int := 0x7FFF_FFFF

  /**
   * `1 << k` on a signed `int` stays defined and positive only while
   * `k <= 30`; the callers below carry that as a precondition.
   */
  const MaxShift: nat := 30

  /** `2^k`, the value of `1 << k` when no overflow happens. */
  function Pow2(k: nat): (r: nat)
    ensures r >= 1
  {
    if k == 0 then 1 else 2 * Pow2(k - 1)
  }

  /** `1 << k` with `k <= 30` is at most `2^30`, so `(1 << k) - 1` stays below `INT_MAX`. */
  lemma {:induction false} Pow2AtMostMaxShift(k: nat)
    requires k <= MaxShift
    ensures Pow2(k) <= 0x4000_0000
  {
    Pow2Monotone(k, MaxShift);
    assert Pow2(1) == 2;
    assert Pow2(2) == 4;
    assert Pow2(3) == 8;
    assert Pow2(4) == 16;
    assert Pow2(5) == 32;
    assert Pow2(6) == 64;
    assert Pow2(7) == 128;
    assert Pow2(8) == 256;
    assert Pow2(9) == 512;
    assert Pow2(10) == 1024;
    assert Pow2(11) == 2048;
    assert Pow2(12) == 4096;
    assert Pow2(13) == 8192;
    assert Pow2(14) == 16384;
    assert Pow2(15) == 32768;
    assert Pow2(16) == 65536;
    assert Pow2(17) == 131072;
    assert Pow2(18) == 262144;
    assert Pow2(19) == 524288;
    assert Pow2(20) == 1048576;
    assert Pow2(21) == 2097152;
    assert Pow2(22) == 4194304;
    assert Pow2(23) == 8388608;
    assert Pow2(24) == 16777216;
    assert Pow2(25) == 33554432;
    assert Pow2(26) == 67108864;
    assert Pow2(27) == 134217728;
    assert Pow2(28) == 268435456;
    assert Pow2(29) == 536870912;
    assert Pow2(30) == 1073741824;
  }

  lemma {:induction false} Pow2Monotone(k: nat, b: nat)
    requires k <= b
    ensures Pow2(k) <= Pow2(b)
  {
    if k < b {
      Pow2Monotone(k, b - 1);
    }
  }
}
