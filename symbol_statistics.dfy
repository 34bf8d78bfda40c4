/**
 * `rans::SymbolStatistics` as declared in librans/include/librans: the
 * statistics object built from a token vector, with an optional forced
 * symbol range of `2^range` symbols.
 *
 * Only the frequency-table build is modelled; the cumulative table, the
 * rescale, the iterator and the JSON constructor are defined out of
 * line, outside these headers.
 */
module RansStatistics {
  import opened RansTypes
  import opened TokenCounts

  /** The two `std::runtime_error`s `buildFrequencyTable` can throw. */
  datatype BuildError = MinOfDataTooSmall | MaxOfDataTooBig

  datatype Result<T> = Success(value: T) | Failure(error: BuildError)

  /**
   * The lower-bound check `static_cast<unsigned int>(min_) > *minmax.first`
   * with `min_ == 0`: an unsigned comparison of zero against a token.
   */
  predicate LowerBoundFails(smallest: nat)
  {
    0 > smallest
  }

  /** With an unsigned token type the lower-bound check can never throw. */
  lemma LowerBoundNeverFails(tokens: seq<nat>)
    requires |tokens| > 0
    ensures !LowerBoundFails(MinToken(tokens))
  {
  }

  /**
   * The upper-bound check `static_cast<unsigned int>(max_) < *minmax.second`
   * with `max_ == 2^range - 1`. It fires exactly when some token does not
   * fit in `range` bits.
   */
  predicate UpperBoundFails(tokens: seq<nat>, range: nat)
    requires |tokens| > 0
  {
    Pow2(range) - 1 < MaxToken(tokens)
  }

  lemma UpperBoundFailsIffTokenTooWide(tokens: seq<nat>, range: nat)
    requires |tokens| > 0
    ensures UpperBoundFails(tokens, range)
        <==> exists i :: 0 <= i < |tokens| && tokens[i] >= Pow2(range)
  {
    if UpperBoundFails(tokens, range) {
      var i :| 0 <= i < |tokens| && tokens[i] == MaxToken(tokens);
      assert tokens[i] >= Pow2(range);
    }
  }

  class SymbolStatistics {
    var min: int
    var max: int
    var frequencyTable: seq<nat>

    /** The member initialisers `min_(0), max_(0), frequencyTable_()`. */
    constructor Init()
      ensures min == 0 && max == 0 && frequencyTable == []
    {
      min, max, frequencyTable := 0, 0, [];
    }

    /**
     * `buildFrequencyTable(tokens, range)`. `minmax_element` is
     * dereferenced on both branches, so the tokens must not be empty;
     * `1 << range` is a signed shift, defined for `range <= 30`; without a
     * forced range the smallest and largest token are stored in `int`
     * fields, so they must fit there, and `abs(max_ - min_) + 1` must not
     * overflow `int`. The table is resized from empty,
     * as the constructor leaves it.
     */
    method BuildFrequencyTable(tokens: seq<nat>, range: nat) returns (outcome: Result<()>)
      requires |tokens| > 0
      requires range <= MaxShift
      requires range == 0 ==> forall i :: 0 <= i < |tokens| ==> tokens[i] <= IntMax
      requires range == 0 ==> MaxToken(tokens) - MinToken(tokens) < IntMax
      requires frequencyTable == []
      modifies this
      ensures range > 0 ==> min == 0 && max == Pow2(range) - 1
      ensures range == 0 ==> min == MinToken(tokens) && max == MaxToken(tokens)
      ensures outcome == if range > 0 && UpperBoundFails(tokens, range) then Failure(MaxOfDataTooBig) else Success(())
      ensures outcome.Success? ==> AllWithin(tokens, min, max)
      ensures outcome.Success? ==> frequencyTable == Histogram(tokens, min, max - min + 1)
      ensures outcome.Failure? ==> frequencyTable == []
    {
      var smallest, largest := MinToken(tokens), MaxToken(tokens);
      if range > 0 {
        min := 0;
        max := Pow2(range) - 1;
        Pow2AtMostMaxShift(range);
        if LowerBoundFails(smallest) {
          return Failure(MinOfDataTooSmall);
        }
        if Pow2(range) - 1 < largest {
          return Failure(MaxOfDataTooBig);
        }
      } else {
        min := smallest;
        max := largest;
      }
      outcome := Success(());
      FillFrequencyTable(tokens);
    }

    /**
     * The tail of the build: resize the empty table to
     * `|max - min| + 1` zeros and count every token at `token - min`.
     */
    method FillFrequencyTable(tokens: seq<nat>)
      requires min <= max && max - min < IntMax
      requires AllWithin(tokens, min, max)
      requires frequencyTable == []
      modifies this`frequencyTable
      ensures frequencyTable == Histogram(tokens, min, max - min + 1)
    {
      var size := (if max - min < 0 then min - max else max - min) + 1;
      EmptyHistogram(min, size);
      frequencyTable := seq(size, _ => 0);

      var i := 0;
      while i < |tokens|
        invariant 0 <= i <= |tokens|
        invariant frequencyTable == Histogram(tokens[..i], min, size)
      {
        var token := tokens[i];
        CountStep(tokens, i, min, max);
        frequencyTable := frequencyTable[token - min := frequencyTable[token - min] + 1];
        i := i + 1;
      }
      assert tokens[..i] == tokens;
    }
  }

  /**
   * The token-vector constructor: member initialisers, then the frequency
   * table build; an exception thrown by the build leaves no object.
   */
  method Create(tokens: seq<nat>, range: nat) returns (r: Result<SymbolStatistics>)
    requires |tokens| > 0
    requires range <= MaxShift
    requires range == 0 ==> forall i :: 0 <= i < |tokens| ==> tokens[i] <= IntMax
    requires range == 0 ==> MaxToken(tokens) - MinToken(tokens) < IntMax
    ensures r.Failure? <==> range > 0 && UpperBoundFails(tokens, range)
    ensures r.Failure? ==> r.error == MaxOfDataTooBig
    ensures r.Success? ==> fresh(r.value)
    ensures r.Success? && range > 0 ==> r.value.min == 0 && r.value.max == Pow2(range) - 1
    ensures r.Success? && range == 0 ==> r.value.min == MinToken(tokens) && r.value.max == MaxToken(tokens)
    ensures r.Success? ==> r.value.frequencyTable == Histogram(tokens, r.value.min, r.value.max - r.value.min + 1)
    ensures r.Success? ==> Sum(r.value.frequencyTable) == |tokens|
  {
    var stats := new SymbolStatistics.Init();
    var outcome := stats.BuildFrequencyTable(tokens, range);
    if outcome.Failure? {
      return Failure(outcome.error);
    }
    HistogramTotal(tokens, stats.min, stats.max - stats.min + 1);
    r := Success(stats);
  }
}
