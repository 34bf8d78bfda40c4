/** `rans::DecoderSymbol`: the per-symbol record the decoder reads. */
module DecoderSymbols {
  import opened RansTypes

  /** Start of the symbol's cumulative range and its frequency. */
  datatype DecoderSymbol = DecoderSymbol(start: U32, freq: U32)

  /**
   * The constructor `DecoderSymbol(start, freq, probabilityBits)`. It
   * validates nothing (the intended bounds on `start` and `freq` are not
   * checked) and ignores `probabilityBits`.
   */
  function NewDecoderSymbol(start: U32, freq: U32, probabilityBits: U32): (r: DecoderSymbol)
    ensures r.start == start && r.freq == freq
  {
    DecoderSymbol(start, freq)
  }

  /** The result does not depend on `probabilityBits`. */
  lemma ProbabilityBitsIgnored(start: U32, freq: U32, p: U32, q: U32)
    ensures NewDecoderSymbol(start, freq, p) == NewDecoderSymbol(start, freq, q)
  {
  }

  /** The intended check `start <= (1 << 16)`. */
  predicate StartWithinBound(start: U32)
  {
    start <= 0x1_0000
  }

  /**
   * The intended check `freq <= (1 << 16) - start`. The subtraction mixes
   * `int` with `uint32_t`, so it is done in `uint32_t` and wraps once
   * `start` exceeds `2^16`.
   */
  predicate FreqWithinBound(start: U32, freq: U32)
  {
    freq <= (0x1_0000 - start) % 0x1_0000_0000
  }

  /**
   * Records each intended check would reject are still built: one with a
   * start past `2^16` (which the wrapped frequency check lets through), and
   * one whose frequency runs past `2^16`.
   */
  lemma OutOfBoundsRecordsAreBuilt()
    ensures var r := NewDecoderSymbol(0x1_0001, 0, 16);
            r == DecoderSymbol(0x1_0001, 0) && !StartWithinBound(r.start) && FreqWithinBound(r.start, r.freq)
    ensures var r := NewDecoderSymbol(0x8000, 0x9000, 16);
            r == DecoderSymbol(0x8000, 0x9000) && StartWithinBound(r.start) && !FreqWithinBound(r.start, r.freq)
  {
  }
}
