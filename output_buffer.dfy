/**
 * The benchmark's output buffer and the cursor the coder moves through it.
 *
 * How many stream words one coder call writes or reads is coder
 * arithmetic, which is not part of this model: those counts are
 * parameters. What is modelled is the buffer's size, where the encode
 * cursor starts, how far each cursor ends up, and the reported encode
 * size with its C++ conversions.
 */
module OutputBuffer {
  import opened TokenCounts
  import opened Sequences
  import LaneSchedule

  /**
   * The two build configurations: `rans32` codes in a `uint32_t` state
   * with `uint8_t` stream words, the default in a `uint64_t` state with
   * `uint32_t` stream words.
   */
  datatype Config = Rans32 | Rans64

  /** `sizeof(stream_t)`. */
  function StreamBytes(config: Config): (r: nat)
  {
    match config
    case Rans32 => 1
    case Rans64 => 4
  }

  /** `out_max_size = 256 << 20`, 256 MiB. */
  const OutMaxSize: nat := 256 * 0x10_0000

  /** `out_max_elems = out_max_size / sizeof(stream_t)`: the words the buffer holds. */
  function OutMaxElems(config: Config): (r: nat)
    ensures r * StreamBytes(config) == OutMaxSize
    ensures r > 0
  {
    OutMaxSize / StreamBytes(config)
  }

  /** The position of `out_end = &out_buf.back()`, where every encode run starts. */
  function OutEnd(config: Config): (r: nat)
    ensures r < OutMaxElems(config)
  {
    OutMaxElems(config) - 1
  }

  /**
   * `static_cast<unsigned int>(&out_buf.back() - rans_begin) *
   * sizeof(stream_t)`, stored back into an `unsigned int`: both
   * conversions are reductions modulo `2^32`. Neither ever wraps, because
   * the buffer is smaller than `2^32` bytes, so the result is exactly the
   * byte count of the words between `rans_begin` and the last element.
   */
  function EncodeSize(config: Config, begin: nat): (r: nat)
    requires begin <= OutEnd(config)
    ensures r == (OutEnd(config) - begin) * StreamBytes(config)
    ensures r < OutMaxSize
    ensures r == 0 <==> begin == OutEnd(config)
  {
    var words := OutEnd(config) - begin;
    assert words * StreamBytes(config) < OutMaxSize by {
      assert words < OutMaxElems(config);
    }
    ((words % 0x1_0000_0000) * StreamBytes(config)) % 0x1_0000_0000
  }

  /**
   * One encode run's cursor: `ptr` starts at `out_end` and every call
   * moves it down over the words it writes (`emitted[k]` for the `k`-th
   * call); `rans_begin` is where it stops. The benchmark does not check
   * the buffer's lower end, so the words must fit.
   */
  method EncodeCursor(config: Config, emitted: seq<nat>) returns (begin: nat)
    requires Sum(emitted) <= OutEnd(config)
    ensures begin == OutEnd(config) - Sum(emitted)
    ensures EncodeSize(config, begin) == Sum(emitted) * StreamBytes(config)
  {
    var ptr := OutEnd(config);
    var i := 0;
    while i < |emitted|
      invariant 0 <= i <= |emitted|
      invariant Sum(emitted[..i]) <= Sum(emitted)
      invariant ptr == OutEnd(config) - Sum(emitted[..i])
    {
      assert emitted[..i + 1][..i] == emitted[..i];
      SumAppend(emitted[..i + 1], emitted[i + 1..]);
      assert emitted[..i + 1] + emitted[i + 1..] == emitted;
      ptr := ptr - emitted[i];
      i := i + 1;
    }
    assert emitted[..i] == emitted;
    begin := ptr;
  }

  /**
   * One decode run's cursor: `ptr` starts at `rans_begin` and every call
   * moves it up over the words it reads (`consumed[k]` for the `k`-th call).
   */
  method DecodeCursor(begin: nat, consumed: seq<nat>) returns (ptr: nat)
    ensures ptr == begin + Sum(consumed)
  {
    ptr := begin;
    var i := 0;
    while i < |consumed|
      invariant 0 <= i <= |consumed|
      invariant ptr == begin + Sum(consumed[..i])
    {
      assert consumed[..i + 1][..i] == consumed[..i];
      ptr := ptr + consumed[i];
      i := i + 1;
    }
    assert consumed[..i] == consumed;
  }

  /** Reversing the calls does not change how many words they move over. */
  lemma {:induction false} SumReverse(s: seq<nat>)
    ensures Sum(Reverse(s)) == Sum(s)
  {
    if s != [] {
      SumReverse(s[1..]);
      SumAppend(Reverse(s[1..]), [s[0]]);
      assert [s[0]] + s[1..] == s;
      SumAppend([s[0]], s[1..]);
      assert [s[0]][..0] == [];
    }
  }

  /** The words each call of a run moves the cursor over, given the count `w` per encode call. */
  function Words(ops: seq<LaneSchedule.EncodeOp>, w: LaneSchedule.EncodeOp -> nat): (r: seq<nat>)
    ensures |r| == |ops|
    ensures forall k :: 0 <= k < |ops| ==> r[k] == w(ops[k])
  {
    seq(|ops|, k requires 0 <= k < |ops| => w(ops[k]))
  }

  /** A run replayed last call first moves the cursor over as many words. */
  lemma WordsReverse(ops: seq<LaneSchedule.EncodeOp>, w: LaneSchedule.EncodeOp -> nat)
    ensures Sum(Words(Reverse(ops), w)) == Sum(Words(ops, w))
  {
    assert Words(Reverse(ops), w) == Reverse(Words(ops, w));
    SumReverse(Words(ops, w));
  }

  /**
   * A benchmark encode run, plain or interleaved, followed by the decode
   * run that starts at its `rans_begin`. Encode call `op` writes `w(op)`
   * words; each decode call reads back the words of the encode call it
   * undoes (`LaneSchedule.Undo`). The decode cursor then ends at `out_end`
   * again, having read exactly the reported encode size.
   */
  method EncodeThenDecode(config: Config, n: nat, interleaved: bool, w: LaneSchedule.EncodeOp -> nat)
    returns (begin: nat, end: nat)
    requires Sum(Words(if interleaved then LaneSchedule.InterleavedEncode(n) else LaneSchedule.SerialEncode(n), w))
             <= OutEnd(config)
    ensures begin <= end == OutEnd(config)
    ensures EncodeSize(config, begin) == (end - begin) * StreamBytes(config)
  {
    var encodeOps: seq<LaneSchedule.EncodeOp>;
    var decodeOps: seq<LaneSchedule.DecodeOp>;
    if interleaved {
      encodeOps := LaneSchedule.EncodeInterleaved(n);
      decodeOps := LaneSchedule.DecodeInterleaved(n);
      LaneSchedule.InterleavedDecodeReversesEncode(n);
    } else {
      encodeOps := LaneSchedule.EncodeNonInterleaved(n);
      decodeOps := LaneSchedule.DecodeNonInterleaved(n);
      LaneSchedule.SerialDecodeReversesEncode(n);
    }
    begin := EncodeCursor(config, Words(encodeOps, w));
    var undone := LaneSchedule.Undo(decodeOps, map[]).0;
    end := DecodeCursor(begin, Words(undone, w));
    WordsReverse(encodeOps, w);
  }
}
