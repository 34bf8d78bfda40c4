# ryg_rans: frequency statistics, coding tables and benchmark schedules

This project models the model-building side of the ryg_rans C++ library and
the driver loops of its benchmark, and proves what they guarantee. The rANS
coder's arithmetic is not modelled: each coder call is an event naming the
state ("lane") it acts on and the token index it codes.

- `RansStatistics` (symbol_statistics.dfy) is `rans::SymbolStatistics` from
  librans/include/librans. `buildFrequencyTable(tokens, range)` fixes the
  symbol range, either forced to `[0, 2^range - 1]` or the observed
  `[min, max]`. It throws `std::runtime_error` when a token lies outside a
  forced range, and otherwise counts every token at `token - min`.
  `Create` is the token-vector constructor.
- `LegacyStatistics` (legacy_symbol_statistics.dfy) is the older class in
  include/librans, which always uses the observed range.
- `TokenCounts` (token_counts.dfy) holds the specification functions for
  both: occurrence counts, smallest and largest token, and the histogram
  over a range.
- `DecoderSymbols` (decoder_symbol.dfy) is the `DecoderSymbol` record,
  `(start, freq)`.
- `SymbolTables` (symbol_table.dfy) is `rans::SymbolTable<T>`. Its
  constructor appends one record per statistics entry. `operator[]` reads
  by raw position.
- `Cum2Sym` (cum2sym.dfy) is the benchmark's `cum2sym` table. It is the
  inverse of the cumulative ranges and is checked against an independent
  search, `SlotOwner`.
- `LaneSchedule` (lane_schedule.dfy) covers the benchmark's four coding
  loops (plain and 2-way interleaved, encode and decode):
  - Each loop is a method that records its coder calls. The method is
    proved equal to a recursive reference schedule.
  - Lemmas on the reference schedules prove which token each lane codes, in
    which order, and that every index is coded once and decoded once.
  - `Undo` replays a decode run as the encode calls it undoes. Lemmas prove
    that decode undoes encode in exactly the reverse order.
- `OutputBuffer` (output_buffer.dfy) covers the output buffer:
  - its size for both build configurations;
  - the encode and decode cursors;
  - the reported encode size, with its `unsigned int` conversions;
  - an encode run followed by its decode run, using the proved schedules.
- `Sequences` (sequences.dfy) holds sequence reversal, which both of the last two modules use.

On empty input the code dereferences `std::minmax_element` of an empty
vector, which is undefined; a non-empty token vector is a precondition of
both builds.

## Model

| member | source | states |
|---|---|---|
| RansStatistics.LowerBoundNeverFails | librans/include/librans/SymbolStatistics.h:98-100 | the "min of data too small" check compares unsigned values against `min_ == 0`, so no token vector makes it throw |
| RansStatistics.UpperBoundFailsIffTokenTooWide | librans/include/librans/SymbolStatistics.h:102-104 | the "max of data too big" check throws exactly when some token is at least `2^range` |
| RansStatistics.SymbolStatistics.Init | librans/include/librans/SymbolStatistics.h:42 | the member initialisers leave `min_ == max_ == 0` and an empty table |
| RansStatistics.SymbolStatistics.BuildFrequencyTable | librans/include/librans/SymbolStatistics.h:87-115 | with a forced range, `[min, max] == [0, 2^range - 1]`; otherwise `[min, max]` is the smallest and largest token. The build fails with `MaxOfDataTooBig` exactly when a forced range is too narrow, and then leaves the table empty. On success every token lies in `[min, max]` and entry `k` of the table is the number of occurrences of `min + k` |
| RansStatistics.SymbolStatistics.FillFrequencyTable | librans/include/librans/SymbolStatistics.h:110-114 | resizing to `abs(max - min) + 1` zeros and incrementing `token - min` for every token yields the occurrence count of each symbol |
| RansStatistics.Create | librans/include/librans/SymbolStatistics.h:40-45 | construction fails exactly when the forced range is too narrow. Otherwise the object holds the range above and the histogram, and the counts sum to the number of tokens |
| LegacyStatistics.SymbolStatistics.Init | include/librans/SymbolStatistics.h:26 | the member initialisers leave `min_ == max_ == 0` and an empty table |
| LegacyStatistics.SymbolStatistics.BuildFrequencyTable | include/librans/SymbolStatistics.h:68-80 | `[min, max]` is the smallest and largest token, every token lies in it, and entry `k` counts the occurrences of `min + k` |
| LegacyStatistics.SymbolStatistics.FillFrequencyTable | include/librans/SymbolStatistics.h:75-79 | resizing and counting at `token - min` yields the occurrence count of each symbol |
| LegacyStatistics.Create | include/librans/SymbolStatistics.h:25-29 | the constructed object holds the observed range and the histogram, and the counts sum to the number of tokens |
| TokenCounts.MinToken | librans/include/librans/SymbolStatistics.h:91 | the smallest element `minmax_element` finds is a token and bounds every token from below |
| TokenCounts.MaxToken | librans/include/librans/SymbolStatistics.h:91 | the largest element `minmax_element` finds is a token and bounds every token from above |
| TokenCounts.Histogram | librans/include/librans/SymbolStatistics.h:110-114 | entry `k` of the table is the multiplicity of `lo + k` among the tokens |
| TokenCounts.HistogramTotal | librans/include/librans/SymbolStatistics.h:112-114 | when every token lies in the table's range, the counts sum to the number of tokens |
| DecoderSymbols.NewDecoderSymbol | librans/include/librans/DecoderSymbol.h:18-24 | the record keeps `start` and `freq` as given |
| DecoderSymbols.ProbabilityBitsIgnored | librans/include/librans/DecoderSymbol.h:18 | the record does not depend on `probabilityBits` |
| DecoderSymbols.OutOfBoundsRecordsAreBuilt | librans/include/librans/DecoderSymbol.h:21-23 | the intended checks `start <= 2^16` and `freq <= 2^16 - start` (the latter computed in `uint32_t`, so it wraps) are not enforced: a record only the first would reject, and one only the second would reject, are both built |
| SymbolTables.SymbolTable.constructor | include/librans/SymbolTable.h:20-27 | one record per statistics entry, in iteration order, built as `T(entry.second, entry.first, probabilityBits)`; `min_` is the statistics' smallest symbol |
| SymbolTables.SymbolTable.At | include/librans/SymbolTable.h:29-33 | the record at raw position `index` is the one built from the `index`-th statistics entry |
| SymbolTables.SymbolTable.Lookup | include/librans/SymbolTable.h:29-37 | the record of symbol `s` is the one built from the statistics entry of `s`, at `s - min`. When `min == 0` it agrees with the raw lookup |
| SymbolTables.RawLookupMisreadsSymbol | include/librans/SymbolTable.h:29-33 | with `min == 1`, the raw lookup of symbol 1 returns symbol 2's record, and symbol 2 has no raw position |
| SymbolTables.NewDecoderSymbolTable | examples/ransBenchmark.cpp:206 | the decoder table holds, for each entry, the pair swapped into `(start, freq)`, both by raw position and by symbol |
| Cum2Sym.SlotOwner | examples/ransBenchmark.cpp:194-200 | for a cumulative table starting at 0 and never decreasing, every slot below the total lies in the range `[cumulative[k], cumulative[k + 1])` of some symbol offset `k` |
| Cum2Sym.SlotOwnerUnique | examples/ransBenchmark.cpp:194-200 | that range is unique: a slot belongs to exactly one symbol |
| Cum2Sym.BuildCum2Sym | examples/ransBenchmark.cpp:190-200 | the table has `prob_scale` entries. Every slot holds the symbol whose cumulative range contains it, truncated to `uint8_t`, for every symbol from `min` to `max` |
| LaneSchedule.EncodeNonInterleaved | examples/ransBenchmark.cpp:222-239 | the plain encode loop issues exactly the reference schedule: puts of tokens `n - 1` down to `0`, then one flush |
| LaneSchedule.DecodeNonInterleaved | examples/ransBenchmark.cpp:248-260 | the plain decode loop issues exactly the reference schedule: one init, then get and advance for tokens `0` up to `n - 1` |
| LaneSchedule.EncodeInterleaved | examples/ransBenchmark.cpp:294-327 | the interleaved encode loop issues exactly the reference schedule: the odd last token on `rans0`, pairs `(rans1, rans0)` descending, flush `rans1` then `rans0` |
| LaneSchedule.DecodeInterleaved | examples/ransBenchmark.cpp:336-360 | the interleaved decode loop issues exactly the reference schedule: init `rans0` then `rans1`, pair rounds ascending, the odd last token on `rans0` |
| LaneSchedule.SerialEncodeOrder | examples/ransBenchmark.cpp:227-238 | plain encode codes tokens `n - 1` down to `0`, each once, on lane 0 |
| LaneSchedule.SerialDecodeOrder | examples/ransBenchmark.cpp:252-260 | plain decode fills `dec_bytes[0]` up to `dec_bytes[n - 1]`, each once, from lane 0 |
| LaneSchedule.InterleavedEncodeOrder | examples/ransBenchmark.cpp:301-324 | interleaved encode codes tokens `n - 1` down to `0`, each once, token `k` on lane `k % 2`, the odd leftover first on `rans0` |
| LaneSchedule.PairPutsOrder | examples/ransBenchmark.cpp:310-324 | the pair loop codes tokens `2m - 1` down to `0`, token `k` on lane `k % 2` |
| LaneSchedule.InterleavedDecodeOrder | examples/ransBenchmark.cpp:341-360 | interleaved decode fills `dec_bytes[0]` up to `dec_bytes[n - 1]`, each once, index `k` from lane `k % 2` |
| LaneSchedule.PairGetsOrder | examples/ransBenchmark.cpp:341-352 | the pair rounds fill `dec_bytes[0]` up to `dec_bytes[2m - 1]`, index `k` from lane `k % 2` |
| LaneSchedule.PairRoundGets | examples/ransBenchmark.cpp:342-345 | a round fills `dec_bytes[i]` from `rans0`, then `dec_bytes[i + 1]` from `rans1` |
| LaneSchedule.SerialCoversEachIndexOnce | examples/ransBenchmark.cpp:227-260 | in plain mode, the `p`-th put codes token `n - 1 - p` and the `p`-th get fills `dec_bytes[p]`, so every index in `[0, n)` is coded once and decoded once |
| LaneSchedule.InterleavedCoversEachIndexOnce | examples/ransBenchmark.cpp:301-360 | in interleaved mode, the `p`-th put codes token `n - 1 - p` on lane `(n - 1 - p) % 2` and the `p`-th get fills `dec_bytes[p]` from lane `p % 2`. Each lane's indices fall while encoding and rise while decoding |
| LaneSchedule.SerialDecodeReversesEncode | examples/ransBenchmark.cpp:222-260 | replaying the plain decode run gives the plain encode run reversed: the init undoes the flush, and each advance undoes its token's put |
| LaneSchedule.SerialGetsUndo | examples/ransBenchmark.cpp:252-260 | the get/advance loop undoes the put loop, last put first |
| LaneSchedule.InterleavedDecodeReversesEncode | examples/ransBenchmark.cpp:294-360 | replaying the interleaved decode run gives the interleaved encode run reversed. The inits undo the flushes (`rans0` then `rans1`), each round's renormalisations undo that pair's puts, and the odd leftover is undone last |
| LaneSchedule.PairGetsUndo | examples/ransBenchmark.cpp:341-352 | the decode rounds undo the encode pair loop in reverse, leaving no half-advanced lane |
| LaneSchedule.PairRoundUndo | examples/ransBenchmark.cpp:346-351 | the two steps followed by the two renormalisations undo `rans0`'s put of `i`, then `rans1`'s put of `i + 1` |
| LaneSchedule.InitsUndo | examples/ransBenchmark.cpp:338-339 | `decInit(rans0)` then `decInit(rans1)` undo `encFlush(rans0)` then `encFlush(rans1)` |
| LaneSchedule.LeftoverUndo | examples/ransBenchmark.cpp:355-360 | the odd last token's get and advance undo its put on `rans0` |
| LaneSchedule.GetAdvanceUndo | examples/ransBenchmark.cpp:253-259 | a get followed by an advance on lane 0 undoes that token's put |
| OutputBuffer.OutMaxElems | examples/ransBenchmark.cpp:184-186 | the buffer holds exactly 256 MiB of stream words, for both stream word sizes |
| OutputBuffer.OutEnd | examples/ransBenchmark.cpp:187 | `out_end` is inside the buffer (its last element) |
| OutputBuffer.EncodeSize | examples/ransBenchmark.cpp:264-266 | the two conversions to `unsigned int` never wrap. The reported size is the byte count of the words from `rans_begin` up to the last element, is below 256 MiB, and is zero exactly when nothing was written |
| OutputBuffer.EncodeCursor | examples/ransBenchmark.cpp:225-239 | the encode cursor starts at `out_end` and stops as many words below as the calls wrote; the reported size is those words' bytes |
| OutputBuffer.DecodeCursor | examples/ransBenchmark.cpp:249-260 | the decode cursor starts at `rans_begin` and ends as many words above as the calls read |
| OutputBuffer.SumReverse | examples/ransBenchmark.cpp:249-260 | calls replayed in reverse move the cursor over the same number of words |
| OutputBuffer.EncodeThenDecode | examples/ransBenchmark.cpp:222-266 | for the plain and the interleaved runs, when each decode call reads back the words of the encode call it undoes, the decode cursor returns to `out_end` having crossed exactly the reported encode size |
| OutputBuffer.WordsReverse | examples/ransBenchmark.cpp:249-260 | a run replayed last call first moves the cursor over as many words as the run itself |

## Findings

| source | as written | input that shows it | evidently intended | confidence | as-written member | corrected member |
|---|---|---|---|---|---|---|
| include/librans/SymbolTable.h:29-33 | `operator[](index)` returns `symbolTable_[index]`. The stored `min_` is never used. The benchmark passes a symbol value (examples/ransBenchmark.cpp:235, 258) | tokens `[1, 1, 1, 2, 2, 2, 2, 2]` with the default range 0 give `min == 1`: `table[1]` is symbol 2's record and `table[2]` is past the end | `symbolTable_[index - min_]` | medium (the statistics iterator that fills the table is defined out of line, outside these headers); not executed | SymbolTables.SymbolTable.At, SymbolTables.RawLookupMisreadsSymbol | SymbolTables.SymbolTable.Lookup |

## Left out

- `buildCumulativeFrequencyTable`, `rescaleFrequencyTable`, `serialize`, the JSON constructor, the statistics' `operator[]`, `size()` and `Iterator` are declared without bodies. Their results enter as parameters:
  - `Cum2Sym.BuildCum2Sym` takes the rescaled cumulative table and requires it to start at 0, never decrease and end at `prob_scale`. It reads `(*stats)[symbol]` as the entry at offset `symbol - min`, the same reading the corrected lookup in "## Findings" relies on;
  - `SymbolTables.SymbolTable.constructor` takes the `(frequency, start)` pairs the iteration yields.
- RansStatistics.Create: the constructor's call to `buildCumulativeFrequencyTable` is not modelled, since that function has no body here.
- LegacyStatistics.Create: the constructor's call to `buildCumulativeFrequencyTable` is not modelled, for the same reason.
- RansStatistics.SymbolStatistics.BuildFrequencyTable: the `uint32_t` counters are unbounded, so wrap-around after `2^32` equal tokens is not modelled. Tokens are unsigned (`source_t` is `uint8_t`), so a negative token type is not modelled either.
- LegacyStatistics.SymbolStatistics.BuildFrequencyTable: the `uint32_t` counters are unbounded, so wrap-around is not modelled.
- RansStatistics.SymbolStatistics.BuildFrequencyTable: `range <= 30` is required because `1 << range` on `int` overflows beyond that. Empty input is required to be absent because the code's behaviour there is undefined.
- The rANS coder (`rans::Coder`, `rans::State`, `EncoderSymbol`, `encInit`, the arithmetic of `encPutSymbol`, `decGet`, `decAdvanceSymbol`, `decAdvanceSymbolStep` and `decRenorm`) is not part of this model. Its calls are lane events. `encInit` only resets a state and issues no event. The words each call writes or reads are parameters of `OutputBuffer`.
- The symbol values `decGet` yields through `cum2sym` and the values written to `dec_bytes` depend on the coder arithmetic, so only the indices written are modelled.
- The `EncoderSymbol` table is a `SymbolTable<T>` like the decoder table. Its record type belongs to the coder and is a parameter (`make`).
- Command-line parsing, JSON reading and writing, console output, file reading (`read_file`), timing (`executionTimer`, `timedRun`), `panic`/`parseArgs` and the unit constants are I/O and reporting.
- The `memcmp`/`printf` pass check and the `0xcc` fill of `dec_bytes` are test reporting.
- RansStatistics.SymbolStatistics.BuildFrequencyTable: without a forced range, tokens above `INT_MAX` are excluded, because `min_` and `max_` are `int` and storing such a token there is not modelled.
- RansStatistics.Create: without a forced range, tokens above `INT_MAX` are excluded, because `min_` and `max_` are `int`.
- LegacyStatistics.SymbolStatistics.BuildFrequencyTable: tokens above `INT_MAX` are excluded, because `min_` and `max_` are `int` and storing such a token there is not modelled.
- LegacyStatistics.Create: tokens above `INT_MAX` are excluded, because `min_` and `max_` are `int`.
- Cum2Sym.BuildCum2Sym: `source_t` is taken to be `uint8_t`, the default, so a stored symbol keeps its low 8 bits (`SourceModulus` is 256). A wider `SOURCE_T` is not modelled. `maxSymbol < INT_MAX` is required because the loop computes `maxSymbol() + 1` and `symbol + 1` in `int`.
- RansStatistics.SymbolStatistics.BuildFrequencyTable: without a forced range, `max - min < INT_MAX` is required, because `std::abs(max_ - min_) + 1` overflows `int` beyond that. With a forced range it holds anyway, since `range <= 30`.
- RansStatistics.Create: without a forced range, `max - min < INT_MAX` is required, for the same `int` overflow.
- LegacyStatistics.SymbolStatistics.BuildFrequencyTable: `max - min < INT_MAX` is required, because `std::abs(max_ - min_) + 1` overflows `int` beyond that.
- LegacyStatistics.Create: `max - min < INT_MAX` is required, for the same `int` overflow.
- OutputBuffer.EncodeCursor: the benchmark never checks the buffer's lower end. The words written are required to fit below `out_end`.
