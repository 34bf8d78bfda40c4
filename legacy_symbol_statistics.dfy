/**
 * The older `rans::SymbolStatistics` in include/librans: the table always
 * spans the observed smallest to largest token and the build cannot fail.
 */
module LegacyStatistics {
  import opened RansTypes
  import opened TokenCounts

  class SymbolStatistics {
    var min: int
    var max: int
    var frequencyTable: seq<nat>

    /** The member initialisers `min_(0), max_(0), frequencyTable_()`. */
    constructor Init()
      ensures min == 0 && max == 0 && frequencyTable == []
    {
      min, max, frequencyTable := 0, 0, [];
    }

    /**
     * `buildFrequencyTable(tokens)`: `minmax_element` is dereferenced
     * unconditionally, so the tokens must not be empty, and the smallest
     * and largest token are stored in `int` fields, so they must fit there,
     * and `abs(max_ - min_) + 1` must not overflow `int`.
     */
    method BuildFrequencyTable(tokens: seq<nat>)
      requires |tokens| > 0
      requires forall i :: 0 <= i < |tokens| ==> tokens[i] <= IntMax
      requires MaxToken(tokens) - MinToken(tokens) < IntMax
      requires frequencyTable == []
      modifies this
      ensures min == MinToken(tokens) && max == MaxToken(tokens)
      ensures AllWithin(tokens, min, max)
      ensures frequencyTable == Histogram(tokens, min, max - min + 1)
    {
      min := MinToken(tokens);
      max := MaxToken(tokens);
      FillFrequencyTable(tokens);
    }

    /**
     * Resize the empty table to `|max - min| + 1` zeros and count every
     * token at `token - min`.
     */
    method FillFrequencyTable(tokens: seq<nat>)
      requires min <= max && max - min < IntMax
      requires AllWithin(tokens, min, max)
      requires frequencyTable == []
      modifies this`frequencyTable
      ensures frequencyTable == Histogram(tokens, min, max - min + 1)
    {
      var size := (if max - min < 0 then min - max else max - min) + 1;
      EmptyHistogram(min, size);
      frequencyTable := seq(size, _ => 0);

      var i := 0;
      while i < |tokens|
        invariant 0 <= i <= |tokens|
        invariant frequencyTable == Histogram(tokens[..i], min, size)
      {
        var token := tokens[i];
        CountStep(tokens, i, min, max);
        frequencyTable := frequencyTable[token - min := frequencyTable[token - min] + 1];
        i := i + 1;
      }
      assert tokens[..i] == tokens;
    }
  }

  /**
   * The token-vector constructor: member initialisers, then the frequency
   * table build, which always succeeds on a non-empty input.
   */
  method Create(tokens: seq<nat>) returns (stats: SymbolStatistics)
    requires |tokens| > 0
    requires forall i :: 0 <= i < |tokens| ==> tokens[i] <= IntMax
    requires MaxToken(tokens) - MinToken(tokens) < IntMax
    ensures fresh(stats)
    ensures stats.min == MinToken(tokens) && stats.max == MaxToken(tokens)
    ensures stats.frequencyTable == Histogram(tokens, stats.min, stats.max - stats.min + 1)
    ensures Sum(stats.frequencyTable) == |tokens|
  {
    stats := new SymbolStatistics.Init();
    stats.BuildFrequencyTable(tokens);
    HistogramTotal(tokens, stats.min, stats.max - stats.min + 1);
  }
}
