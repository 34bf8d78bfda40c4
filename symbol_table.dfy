/**
 * `rans::SymbolTable<T>`: one coding record per entry of the symbol
 * statistics, stored in iteration order and looked up by raw position.
 *
 * The statistics' iterator is defined out of line, outside these headers,
 * so the constructor takes the sequence of `(frequency, start)` pairs the
 * iteration yields, and the record type's constructor as `make`.
 */
module SymbolTables {
  import opened RansTypes
  import opened DecoderSymbols

  class SymbolTable<T> {
    /** `min_`, set once from `symbolStats.minSymbol()`; lookups do not use it. */
    const min: int
    /** What the table was built from; kept for the specification only. */
    ghost const stats: seq<(U32, U32)>
    ghost const probabilityBits: nat
    ghost const make: (U32, U32, nat) -> T

    var symbolTable: seq<T>

    /** Entry `k` is `T(stats[k].second, stats[k].first, probabilityBits)`. */
    ghost predicate Valid()
      reads this
    {
      && |symbolTable| == |stats|
      && forall k :: 0 <= k < |stats| ==> symbolTable[k] == make(stats[k].1, stats[k].0, probabilityBits)
    }

    /**
     * Iterates the statistics and appends one record per entry, swapping
     * the pair into `(start, freq)` argument order.
     */
    constructor (stats: seq<(U32, U32)>, minSymbol: int, probabilityBits: nat, make: (U32, U32, nat) -> T)
      ensures Valid()
      ensures this.min == minSymbol
      ensures this.stats == stats && this.probabilityBits == probabilityBits && this.make == make
      ensures |symbolTable| == |stats|
    {
      this.min := minSymbol;
      this.stats := stats;
      this.probabilityBits := probabilityBits;
      this.make := make;
      new;
      symbolTable := [];
      var i := 0;
      while i < |stats|
        invariant 0 <= i <= |stats|
        invariant |symbolTable| == i
        invariant forall k :: 0 <= k < i ==> symbolTable[k] == make(stats[k].1, stats[k].0, probabilityBits)
      {
        var entry := stats[i];
        symbolTable := symbolTable + [make(entry.1, entry.0, probabilityBits)];
        i := i + 1;
      }
    }

    /**
     * `operator[](index)`: the record at raw position `index`, that is,
     * the one built from the `index`-th statistics entry. `min` is not
     * subtracted and nothing is bounds-checked.
     */
    function At(index: nat): (r: T)
      reads this
      requires Valid()
      requires index < |symbolTable|
      ensures r == make(stats[index].1, stats[index].0, probabilityBits)
    {
      symbolTable[index]
    }

    /**
     * The lookup the callers evidently intend: they pass a symbol value,
     * and the table stores symbol `min + k` at position `k`, so the record
     * of `symbol` sits at `symbol - min`.
     */
    function Lookup(symbol: int): (r: T)
      reads this
      requires Valid()
      requires min <= symbol < min + |symbolTable|
      ensures r == make(stats[symbol - min].1, stats[symbol - min].0, probabilityBits)
      ensures min == 0 ==> r == At(symbol)
    {
      symbolTable[symbol - min]
    }
  }

  /**
   * The raw lookup misreads symbols once `min` is not 0. The default
   * range `0` makes `min` the smallest token, so the tokens
   * `[1, 1, 1, 2, 2, 2, 2, 2]` give statistics for the symbols 1
   * (frequency 3 from 0) and 2 (frequency 5 from 3); rescaling changes
   * the frequencies but not `min`. A table built from such statistics
   * returns symbol 2's record for `table[1]`, and `table[2]` is past the
   * end.
   */
  lemma RawLookupMisreadsSymbol(table: SymbolTable<DecoderSymbol>)
    requires table.Valid()
    requires table.min == 1
    requires table.stats == [(3, 0), (5, 3)]
    requires table.make == DecoderSymbolOf
    ensures table.Lookup(1) == DecoderSymbol(0, 3)
    ensures table.At(1) == DecoderSymbol(3, 5)
    ensures !(2 < |table.symbolTable|)
  {
  }

  /** `probabiltyBits` is a `uint64_t` here and a `uint32_t` in the record's constructor. */
  function DecoderSymbolOf(start: U32, freq: U32, probabilityBits: nat): (r: DecoderSymbol)
  {
    NewDecoderSymbol(start, freq, probabilityBits % 0x1_0000_0000)
  }

  /**
   * The decoder table the benchmark builds from the statistics: entry `k`
   * holds the `k`-th statistics pair, swapped into `(start, freq)`.
   */
  method NewDecoderSymbolTable(stats: seq<(U32, U32)>, minSymbol: int, probabilityBits: nat)
    returns (table: SymbolTable<DecoderSymbol>)
    ensures fresh(table) && table.Valid()
    ensures table.min == minSymbol && |table.symbolTable| == |stats|
    ensures forall k :: 0 <= k < |stats| ==> table.At(k).start == stats[k].1 && table.At(k).freq == stats[k].0
    ensures forall symbol :: minSymbol <= symbol < minSymbol + |stats| ==>
              table.Lookup(symbol) == DecoderSymbol(stats[symbol - minSymbol].1, stats[symbol - minSymbol].0)
  {
    table := new SymbolTable(stats, minSymbol, probabilityBits, DecoderSymbolOf);
  }
}
