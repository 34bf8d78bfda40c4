/**
 * The benchmark's cumulative-to-symbol table `cum2sym`: for every slot
 * `c` of the probability scale, the symbol whose cumulative range
 * `[start, start + freq)` contains `c`.
 *
 * The cumulative starts come from the rescaled statistics, whose rescale
 * and lookup are defined out of line, outside these headers; they enter
 * as a table indexed by `symbol - min` of length `max - min + 2` that
 * starts at 0, never decreases and ends at the probability scale, which is
 * what the rescale to `prob_scale` establishes.
 */
module Cum2Sym {
  import opened RansTypes

  /** `cum2sym` holds `source_t`, which is `uint8_t`: a store keeps the low 8 bits. */
  const SourceModulus: nat := 256

  /** A cumulative table: it starts at 0 and never decreases. */
  predicate IsCumulative(cumulative: seq<nat>)
  {
    && |cumulative| >= 1
    && cumulative[0] == 0
    && forall i, j :: 0 <= i <= j < |cumulative| ==> cumulative[i] <= cumulative[j]
  }

  /** A rescaled cumulative table whose last entry is `total`. */
  predicate IsCumulativeTable(cumulative: seq<nat>, total: nat)
  {
    IsCumulative(cumulative) && cumulative[|cumulative| - 1] == total
  }

  /**
   * The offset `k` (symbol `min + k`) whose range
   * `[cumulative[k], cumulative[k + 1])` contains the slot `c`, searched
   * upwards from `k`.
   */
  function SlotOwnerFrom(cumulative: seq<nat>, c: nat, k: nat): (owner: nat)
    requires IsCumulative(cumulative)
    requires k + 1 < |cumulative|
    requires cumulative[k] <= c < cumulative[|cumulative| - 1]
    ensures k <= owner && owner + 1 < |cumulative|
    ensures cumulative[owner] <= c < cumulative[owner + 1]
    decreases |cumulative| - k
  {
    if c < cumulative[k + 1] then k else SlotOwnerFrom(cumulative, c, k + 1)
  }

  function SlotOwner(cumulative: seq<nat>, c: nat): (owner: nat)
    requires IsCumulative(cumulative)
    requires c < cumulative[|cumulative| - 1]
    ensures owner + 1 < |cumulative|
    ensures cumulative[owner] <= c < cumulative[owner + 1]
  {
    SlotOwnerFrom(cumulative, c, 0)
  }

  /** Ranges of a non-decreasing table are disjoint: each slot has one owner. */
  lemma SlotOwnerUnique(cumulative: seq<nat>, c: nat, k: nat)
    requires IsCumulative(cumulative)
    requires k + 1 < |cumulative|
    requires cumulative[k] <= c < cumulative[k + 1]
    ensures SlotOwner(cumulative, c) == k
  {
    var owner := SlotOwner(cumulative, c);
    // the two ranges are ordered one after the other unless they coincide
    var lo := if owner < k then owner + 1 else if owner > k then k + 1 else k;
    var hi := if owner < k then k else owner;
    assert cumulative[lo] <= cumulative[hi];
  }

  /**
   * examples/ransBenchmark.cpp:190-200: a zero-initialised table of
   * `probScale` entries, then for every symbol from `min` to `max` every
   * slot of its cumulative range set to the symbol, truncated to
   * `source_t`. The loop bound `maxSymbol() + 1` is an `int`, so
   * `maxSymbol` must be below `INT_MAX`.
   */
  method BuildCum2Sym(cumulative: seq<nat>, minSymbol: int, maxSymbol: int, probScale: nat)
    returns (cum2sym: seq<nat>)
    requires maxSymbol < IntMax
    requires |cumulative| == maxSymbol - minSymbol + 2
    requires IsCumulativeTable(cumulative, probScale)
    ensures |cum2sym| == probScale
    ensures forall c :: 0 <= c < probScale ==>
              cum2sym[c] == (minSymbol + SlotOwner(cumulative, c)) % SourceModulus
    ensures forall k, c :: 0 <= k < |cumulative| - 1 && cumulative[k] <= c < cumulative[k + 1] ==>
              cum2sym[c] == (minSymbol + k) % SourceModulus
  {
    var table := new nat[probScale](_ => 0);
    var symbol := minSymbol;
    while symbol < maxSymbol + 1
      invariant minSymbol <= symbol <= maxSymbol + 1
      invariant forall c :: 0 <= c < cumulative[symbol - minSymbol] ==>
                  table[c] == (minSymbol + SlotOwner(cumulative, c)) % SourceModulus
    {
      var cumul := cumulative[symbol - minSymbol];
      while cumul < cumulative[symbol - minSymbol + 1]
        invariant cumulative[symbol - minSymbol] <= cumul <= cumulative[symbol - minSymbol + 1]
        invariant forall c :: 0 <= c < cumul ==>
                    table[c] == (minSymbol + SlotOwner(cumulative, c)) % SourceModulus
      {
        SlotOwnerUnique(cumulative, cumul, symbol - minSymbol);
        table[cumul] := symbol % SourceModulus;
        cumul := cumul + 1;
      }
      symbol := symbol + 1;
    }
    cum2sym := table[..];
    forall k, c | 0 <= k < |cumulative| - 1 && cumulative[k] <= c < cumulative[k + 1]
      ensures cum2sym[c] == (minSymbol + k) % SourceModulus
    {
      SlotOwnerUnique(cumulative, c, k);
    }
  }
}
