/**
 * The order in which the benchmark drives the rANS coder, for the plain
 * (one state) and the 2-way interleaved (states `rans0`, `rans1`) runs.
 *
 * The coder's arithmetic is not part of this model: every coder call is an
 * event naming the state (lane) it acts on and, where it codes a token, the
 * token's index. A run is the sequence of events it issues; `encInit`,
 * which only resets a state, issues none.
 */
module LaneSchedule {
  import opened Sequences

  /** Lane 0 is `rans` or `rans0`, lane 1 is `rans1`. */
  type Lane = l: nat | l < 2

  datatype EncodeOp =
    | EncPutSymbol(lane: Lane, index: nat)   // encPutSymbol of tokens[index]
    | EncFlush(lane: Lane)                   // encFlush

  datatype DecodeOp =
    | DecInit(lane: Lane)                    // decInit
    | DecGet(lane: Lane, index: nat)         // dec_bytes[index] := cum2sym[decGet]
    | DecAdvanceSymbolStep(lane: Lane, index: nat)
    | DecRenorm(lane: Lane)
    | DecAdvanceSymbol(lane: Lane, index: nat)

  /** The lane that codes token `k`. */
  function LaneOf(k: nat, interleaved: bool): (r: Lane)
  {
    if interleaved then k % 2 else 0
  }

  // ---------------------------------------------------------------------
  // Reference schedules, round by round.

  /** Plain encode: tokens `n - 1` down to `0`. */
  function SerialPuts(n: nat): (r: seq<EncodeOp>)
  {
    if n == 0 then [] else [EncPutSymbol(0, n - 1)] + SerialPuts(n - 1)
  }

  function SerialEncode(n: nat): (r: seq<EncodeOp>)
  {
    SerialPuts(n) + [EncFlush(0)]
  }

  /** Plain decode: tokens `0` up to `n - 1`. */
  function SerialGets(n: nat): (r: seq<DecodeOp>)
  {
    if n == 0 then [] else SerialGets(n - 1) + [DecGet(0, n - 1), DecAdvanceSymbol(0, n - 1)]
  }

  function SerialDecode(n: nat): (r: seq<DecodeOp>)
  {
    [DecInit(0)] + SerialGets(n)
  }

  /** The odd last token, coded alone on lane 0. */
  function Leftover(n: nat): (r: seq<EncodeOp>)
  {
    if n % 2 == 1 then [EncPutSymbol(0, n - 1)] else []
  }

  /** Interleaved encode rounds for the pairs `m - 1` down to `0`. */
  function PairPuts(m: nat): (r: seq<EncodeOp>)
  {
    if m == 0 then [] else [EncPutSymbol(1, 2 * m - 1), EncPutSymbol(0, 2 * m - 2)] + PairPuts(m - 1)
  }

  function InterleavedEncode(n: nat): (r: seq<EncodeOp>)
  {
    Leftover(n) + PairPuts(n / 2) + [EncFlush(1), EncFlush(0)]
  }

  /** One interleaved decode round for the tokens `i` (lane 0) and `i + 1` (lane 1). */
  function PairRound(i: nat): (r: seq<DecodeOp>)
  {
    [DecGet(0, i), DecGet(1, i + 1),
     DecAdvanceSymbolStep(0, i), DecAdvanceSymbolStep(1, i + 1),
     DecRenorm(0), DecRenorm(1)]
  }

  /** Interleaved decode rounds for the pairs `0` up to `m - 1`. */
  function PairGets(m: nat): (r: seq<DecodeOp>)
  {
    if m == 0 then [] else PairGets(m - 1) + PairRound(2 * m - 2)
  }

  function LeftoverDecode(n: nat): (r: seq<DecodeOp>)
  {
    if n % 2 == 1 then [DecGet(0, n - 1), DecAdvanceSymbol(0, n - 1)] else []
  }

  function InterleavedDecode(n: nat): (r: seq<DecodeOp>)
  {
    [DecInit(0), DecInit(1)] + PairGets(n / 2) + LeftoverDecode(n)
  }

  // ---------------------------------------------------------------------
  // The benchmark's loops. `n` is `tokens.size()`; `n & 1` is `n % 2` and
  // `n & ~1` is `n - n % 2`.

  /** examples/ransBenchmark.cpp:222-239: encode in reverse, then flush. */
  method EncodeNonInterleaved(n: nat) returns (ops: seq<EncodeOp>)
    ensures ops == SerialEncode(n)
  {
    ops := [];
    var i := n;
    while i > 0
      invariant 0 <= i <= n
      invariant ops + SerialPuts(i) == SerialPuts(n)
    {
      assert SerialPuts(i) == [EncPutSymbol(0, i - 1)] + SerialPuts(i - 1);
      ops := ops + [EncPutSymbol(0, i - 1)];
      i := i - 1;
    }
    ops := ops + [EncFlush(0)];
  }

  /** examples/ransBenchmark.cpp:248-260: init, then get and advance token by token. */
  method DecodeNonInterleaved(n: nat) returns (ops: seq<DecodeOp>)
    ensures ops == SerialDecode(n)
  {
    ops := [DecInit(0)];
    var i := 0;
    while i < n
      invariant 0 <= i <= n
      invariant ops == [DecInit(0)] + SerialGets(i)
    {
      ops := ops + [DecGet(0, i), DecAdvanceSymbol(0, i)];
      i := i + 1;
    }
  }

  /** examples/ransBenchmark.cpp:294-327: the odd last token on `rans0`, pairs in reverse, flush `rans1` then `rans0`. */
  method EncodeInterleaved(n: nat) returns (ops: seq<EncodeOp>)
    ensures ops == InterleavedEncode(n)
  {
    ops := [];
    if n % 2 == 1 {
      ops := ops + [EncPutSymbol(0, n - 1)];
    }
    var i := n - n % 2;
    while i > 0
      invariant 0 <= i <= n - n % 2 && i % 2 == 0
      invariant ops + PairPuts(i / 2) == Leftover(n) + PairPuts(n / 2)
    {
      assert PairPuts(i / 2) == [EncPutSymbol(1, i - 1), EncPutSymbol(0, i - 2)] + PairPuts(i / 2 - 1);
      ops := ops + [EncPutSymbol(1, i - 1), EncPutSymbol(0, i - 2)];
      i := i - 2;
    }
    ops := ops + [EncFlush(1), EncFlush(0)];
  }

  /** examples/ransBenchmark.cpp:336-360: init `rans0` then `rans1`, pairs forward, the odd last token on `rans0`. */
  method DecodeInterleaved(n: nat) returns (ops: seq<DecodeOp>)
    ensures ops == InterleavedDecode(n)
  {
    ops := [DecInit(0), DecInit(1)];
    var i := 0;
    while i < n - n % 2
      invariant 0 <= i <= n - n % 2 && i % 2 == 0
      invariant ops == [DecInit(0), DecInit(1)] + PairGets(i / 2)
    {
      ops := ops + [DecGet(0, i), DecGet(1, i + 1),
                    DecAdvanceSymbolStep(0, i), DecAdvanceSymbolStep(1, i + 1),
                    DecRenorm(0), DecRenorm(1)];
      i := i + 2;
    }
    if n % 2 == 1 {
      ops := ops + [DecGet(0, n - 1), DecAdvanceSymbol(0, n - 1)];
    }
  }

  // ---------------------------------------------------------------------
  // Which token goes where: each index once, in order, on lane `k % 2`.

  /** The encode calls that code a token, in issue order. */
  function Puts(ops: seq<EncodeOp>): (r: seq<EncodeOp>)
  {
    if ops == [] then []
    else if ops[0].EncPutSymbol? then [ops[0]] + Puts(ops[1..])
    else Puts(ops[1..])
  }

  /** The decode calls that fill `dec_bytes`, in issue order. */
  function Gets(ops: seq<DecodeOp>): (r: seq<DecodeOp>)
  {
    if ops == [] then []
    else if ops[0].DecGet? then [ops[0]] + Gets(ops[1..])
    else Gets(ops[1..])
  }

  lemma {:induction false} PutsAppend(a: seq<EncodeOp>, b: seq<EncodeOp>)
    ensures Puts(a + b) == Puts(a) + Puts(b)
  {
    if a == [] {
      assert a + b == b;
    } else {
      assert (a + b)[0] == a[0];
      assert (a + b)[1..] == a[1..] + b;
      PutsAppend(a[1..], b);
    }
  }

  lemma {:induction false} GetsAppend(a: seq<DecodeOp>, b: seq<DecodeOp>)
    ensures Gets(a + b) == Gets(a) + Gets(b)
  {
    if a == [] {
      assert a + b == b;
    } else {
      assert (a + b)[0] == a[0];
      assert (a + b)[1..] == a[1..] + b;
      GetsAppend(a[1..], b);
    }
  }

  lemma PutsSingle(op: EncodeOp)
    ensures Puts([op]) == if op.EncPutSymbol? then [op] else []
  {
    assert [op][1..] == [];
  }

  lemma GetsCons(op: DecodeOp, rest: seq<DecodeOp>)
    ensures Gets([op] + rest) == (if op.DecGet? then [op] else []) + Gets(rest)
  {
    assert ([op] + rest)[0] == op;
    assert ([op] + rest)[1..] == rest;
  }

  lemma GetsSingle(op: DecodeOp)
    ensures Gets([op]) == if op.DecGet? then [op] else []
  {
    assert [op][1..] == [];
  }

  /** Tokens `n - 1` down to `0`, token `k` on its lane. */
  function Descending(n: nat, interleaved: bool): (r: seq<EncodeOp>)
  {
    if n == 0 then [] else [EncPutSymbol(LaneOf(n - 1, interleaved), n - 1)] + Descending(n - 1, interleaved)
  }

  /** Tokens `0` up to `n - 1`, token `k` on its lane. */
  function Ascending(n: nat, interleaved: bool): (r: seq<DecodeOp>)
  {
    if n == 0 then [] else Ascending(n - 1, interleaved) + [DecGet(LaneOf(n - 1, interleaved), n - 1)]
  }

  /** Position `p` of the descending order codes token `n - 1 - p` on its lane. */
  lemma {:induction false} DescendingAt(n: nat, interleaved: bool)
    ensures |Descending(n, interleaved)| == n
    ensures forall p :: 0 <= p < n ==>
              Descending(n, interleaved)[p] == EncPutSymbol(LaneOf(n - 1 - p, interleaved), n - 1 - p)
  {
    if n > 0 {
      DescendingAt(n - 1, interleaved);
    }
  }

  /** Position `p` of the ascending order fills `dec_bytes[p]` from its lane. */
  lemma {:induction false} AscendingAt(n: nat, interleaved: bool)
    ensures |Ascending(n, interleaved)| == n
    ensures forall p :: 0 <= p < n ==> Ascending(n, interleaved)[p] == DecGet(LaneOf(p, interleaved), p)
  {
    if n > 0 {
      AscendingAt(n - 1, interleaved);
    }
  }

  /** Plain encode codes every token once, from `n - 1` down to `0`, all on lane 0. */
  lemma {:induction false} SerialEncodeOrder(n: nat)
    ensures Puts(SerialEncode(n)) == Descending(n, false)
  {
    SerialPutsOrder(n);
    PutsAppend(SerialPuts(n), [EncFlush(0)]);
    PutsSingle(EncFlush(0));
  }

  lemma {:induction false} SerialPutsOrder(n: nat)
    ensures Puts(SerialPuts(n)) == Descending(n, false)
  {
    if n > 0 {
      SerialPutsOrder(n - 1);
      PutsAppend([EncPutSymbol(0, n - 1)], SerialPuts(n - 1));
      PutsSingle(EncPutSymbol(0, n - 1));
    }
  }

  /** Plain decode fills `dec_bytes[0]` up to `dec_bytes[n - 1]`, each once, all from lane 0. */
  lemma {:induction false} SerialDecodeOrder(n: nat)
    ensures Gets(SerialDecode(n)) == Ascending(n, false)
  {
    SerialGetsOrder(n);
    GetsAppend([DecInit(0)], SerialGets(n));
    GetsSingle(DecInit(0));
  }

  lemma {:induction false} SerialGetsOrder(n: nat)
    ensures Gets(SerialGets(n)) == Ascending(n, false)
  {
    if n > 0 {
      SerialGetsOrder(n - 1);
      var get, advance := DecGet(0, n - 1), DecAdvanceSymbol(0, n - 1);
      assert [get, advance] == [get] + [advance];
      GetsAppend(SerialGets(n - 1), [get, advance]);
      GetsAppend([get], [advance]);
      GetsSingle(get);
      GetsSingle(advance);
    }
  }

  /**
   * Interleaved encode codes every token once, from `n - 1` down to `0`,
   * token `k` on lane `k % 2`; the odd last token goes to lane 0 first.
   */
  lemma {:induction false} InterleavedEncodeOrder(n: nat)
    ensures Puts(InterleavedEncode(n)) == Descending(n, true)
  {
    var m := n / 2;
    PairPutsOrder(m);
    PutsAppend(Leftover(n), PairPuts(m));
    PutsAppend(Leftover(n) + PairPuts(m), [EncFlush(1), EncFlush(0)]);
    assert [EncFlush(1), EncFlush(0)] == [EncFlush(1)] + [EncFlush(0)];
    PutsAppend([EncFlush(1)], [EncFlush(0)]);
    PutsSingle(EncFlush(1));
    PutsSingle(EncFlush(0));
    if n % 2 == 1 {
      PutsSingle(EncPutSymbol(0, n - 1));
      assert Descending(n, true) == [EncPutSymbol(0, n - 1)] + Descending(2 * m, true);
    } else {
      assert Puts(Leftover(n)) == [];
    }
  }

  lemma {:induction false} PairPutsOrder(m: nat)
    ensures Puts(PairPuts(m)) == Descending(2 * m, true)
  {
    if m > 0 {
      PairPutsOrder(m - 1);
      var hi, lo := EncPutSymbol(1, 2 * m - 1), EncPutSymbol(0, 2 * m - 2);
      PutsAppend([hi, lo], PairPuts(m - 1));
      assert [hi, lo] == [hi] + [lo];
      PutsAppend([hi], [lo]);
      PutsSingle(hi);
      PutsSingle(lo);
      assert Descending(2 * m, true) == [hi, lo] + Descending(2 * m - 2, true);
    }
  }

  /**
   * Interleaved decode fills `dec_bytes[0]` up to `dec_bytes[n - 1]`, each
   * once, index `k` from lane `k % 2`.
   */
  lemma {:induction false} InterleavedDecodeOrder(n: nat)
    ensures Gets(InterleavedDecode(n)) == Ascending(n, true)
  {
    var m := n / 2;
    PairGetsOrder(m);
    var inits := [DecInit(0), DecInit(1)];
    GetsAppend(inits, PairGets(m));
    GetsAppend(inits + PairGets(m), LeftoverDecode(n));
    assert inits == [DecInit(0)] + [DecInit(1)];
    GetsAppend([DecInit(0)], [DecInit(1)]);
    GetsSingle(DecInit(0));
    GetsSingle(DecInit(1));
    if n % 2 == 1 {
      var get, advance := DecGet(0, n - 1), DecAdvanceSymbol(0, n - 1);
      assert [get, advance] == [get] + [advance];
      GetsAppend([get], [advance]);
      GetsSingle(get);
      GetsSingle(advance);
      assert Ascending(n, true) == Ascending(2 * m, true) + [get];
    } else {
      assert Gets(LeftoverDecode(n)) == [];
    }
  }

  lemma {:induction false} PairGetsOrder(m: nat)
    ensures Gets(PairGets(m)) == Ascending(2 * m, true)
  {
    if m > 0 {
      PairGetsOrder(m - 1);
      var i := 2 * m - 2;
      GetsAppend(PairGets(m - 1), PairRound(i));
      PairRoundGets(i);
      assert LaneOf(i, true) == 0 && LaneOf(i + 1, true) == 1;
      assert Ascending(i + 1, true) == Ascending(i, true) + [DecGet(0, i)];
      assert Ascending(2 * m, true) == Ascending(i + 1, true) + [DecGet(1, i + 1)];
    }
  }

  /** A round fills `dec_bytes[i]` from lane 0, then `dec_bytes[i + 1]` from lane 1. */
  lemma PairRoundGets(i: nat)
    ensures Gets(PairRound(i)) == [DecGet(0, i), DecGet(1, i + 1)]
  {
    var r := PairRound(i);
    var t5 := [r[5]] + [];
    var t4 := [r[4]] + t5;
    var t3 := [r[3]] + t4;
    var t2 := [r[2]] + t3;
    var t1 := [r[1]] + t2;
    var t0 := [r[0]] + t1;
    assert r == t0;
    GetsCons(r[5], []);
    GetsCons(r[4], t5);
    GetsCons(r[3], t4);
    GetsCons(r[2], t3);
    assert Gets(t2) == [];
    GetsCons(r[1], t2);
    assert Gets(t1) == [DecGet(1, i + 1)];
    GetsCons(r[0], t1);
    assert [DecGet(0, i)] + [DecGet(1, i + 1)] == [DecGet(0, i), DecGet(1, i + 1)];
  }

  /**
   * Plain runs, position by position: the `p`-th put codes token
   * `n - 1 - p`, the `p`-th get fills `dec_bytes[p]`, all on lane 0; so
   * every index in `[0, n)` is coded once and decoded once.
   */
  lemma SerialCoversEachIndexOnce(n: nat)
    ensures |Puts(SerialEncode(n))| == n && |Gets(SerialDecode(n))| == n
    ensures forall p :: 0 <= p < n ==> Puts(SerialEncode(n))[p] == EncPutSymbol(0, n - 1 - p)
    ensures forall p :: 0 <= p < n ==> Gets(SerialDecode(n))[p] == DecGet(0, p)
  {
    SerialEncodeOrder(n);
    SerialDecodeOrder(n);
    DescendingAt(n, false);
    AscendingAt(n, false);
  }

  /**
   * Interleaved runs, position by position: the `p`-th put codes token
   * `n - 1 - p` on lane `(n - 1 - p) % 2`, the `p`-th get fills
   * `dec_bytes[p]` from lane `p % 2`; each lane's indices fall while
   * encoding and rise while decoding.
   */
  lemma InterleavedCoversEachIndexOnce(n: nat)
    ensures |Puts(InterleavedEncode(n))| == n && |Gets(InterleavedDecode(n))| == n
    ensures forall p :: 0 <= p < n ==> Puts(InterleavedEncode(n))[p] == EncPutSymbol((n - 1 - p) % 2, n - 1 - p)
    ensures forall p :: 0 <= p < n ==> Gets(InterleavedDecode(n))[p] == DecGet(p % 2, p)
  {
    InterleavedEncodeOrder(n);
    InterleavedDecodeOrder(n);
    DescendingAt(n, true);
    AscendingAt(n, true);
  }

  // ---------------------------------------------------------------------
  // Decode undoes encode in exactly the reverse order.

  /**
   * The encode call one decode call undoes, if it completes one:
   * `decInit` undoes `encFlush` on its lane, `decAdvanceSymbol` undoes the
   * `encPutSymbol` of its token on its lane, and `decAdvanceSymbolStep`
   * followed by `decRenorm` on the same lane undoes it in two halves.
   * `pending` holds, per lane, the token whose step has run and whose
   * renormalisation has not.
   */
  function UndoOp(op: DecodeOp, pending: map<Lane, nat>): (r: (seq<EncodeOp>, map<Lane, nat>))
  {
    match op
    case DecInit(l) => ([EncFlush(l)], pending)
    case DecGet(_, _) => ([], pending)
    case DecAdvanceSymbolStep(l, k) => ([], pending[l := k])
    case DecRenorm(l) =>
      if l in pending then ([EncPutSymbol(l, pending[l])], pending - {l}) else ([], pending)
    case DecAdvanceSymbol(l, k) => ([EncPutSymbol(l, k)], pending)
  }

  /** The encode calls a run of decode calls undoes, in the order it undoes them. */
  function Undo(ops: seq<DecodeOp>, pending: map<Lane, nat>): (r: (seq<EncodeOp>, map<Lane, nat>))
  {
    if ops == [] then ([], pending)
    else
      var step := UndoOp(ops[0], pending);
      var rest := Undo(ops[1..], step.1);
      (step.0 + rest.0, rest.1)
  }

  lemma {:induction false} UndoAppend(a: seq<DecodeOp>, b: seq<DecodeOp>, pending: map<Lane, nat>)
    ensures Undo(a + b, pending)
         == (Undo(a, pending).0 + Undo(b, Undo(a, pending).1).0, Undo(b, Undo(a, pending).1).1)
  {
    if a == [] {
      assert a + b == b;
      assert Undo(a, pending) == ([], pending);
      assert [] + Undo(b, pending).0 == Undo(b, pending).0;
    } else {
      assert (a + b)[0] == a[0];
      assert (a + b)[1..] == a[1..] + b;
      var step := UndoOp(a[0], pending);
      UndoAppend(a[1..], b, step.1);
      var tail := Undo(a[1..], step.1);
      assert Undo(a, pending) == (step.0 + tail.0, tail.1);
      assert Undo(a + b, pending).0 == step.0 + (tail.0 + Undo(b, tail.1).0);
      assert Undo(a + b, pending).1 == Undo(b, tail.1).1;
      assert Undo(a + b, pending).0 == Undo(a, pending).0 + Undo(b, Undo(a, pending).1).0;
    }
  }

  lemma UndoCons(op: DecodeOp, rest: seq<DecodeOp>, pending: map<Lane, nat>)
    ensures Undo([op] + rest, pending)
         == (UndoOp(op, pending).0 + Undo(rest, UndoOp(op, pending).1).0, Undo(rest, UndoOp(op, pending).1).1)
  {
    assert ([op] + rest)[0] == op;
    assert ([op] + rest)[1..] == rest;
  }

  /** Plain decode undoes plain encode call by call, last call first. */
  lemma {:induction false} SerialDecodeReversesEncode(n: nat)
    ensures Undo(SerialDecode(n), map[]) == (Reverse(SerialEncode(n)), map[])
  {
    SerialGetsUndo(n);
    UndoCons(DecInit(0), SerialGets(n), map[]);
    ReverseAppend(SerialPuts(n), [EncFlush(0)]);
    ReverseSingle(EncFlush(0));
  }

  lemma {:induction false} SerialGetsUndo(n: nat)
    ensures Undo(SerialGets(n), map[]) == (Reverse(SerialPuts(n)), map[])
  {
    if n > 0 {
      SerialGetsUndo(n - 1);
      var get, advance := DecGet(0, n - 1), DecAdvanceSymbol(0, n - 1);
      UndoAppend(SerialGets(n - 1), [get, advance], map[]);
      GetAdvanceUndo(n - 1);
      ReverseAppend([EncPutSymbol(0, n - 1)], SerialPuts(n - 1));
      ReverseSingle(EncPutSymbol(0, n - 1));
    }
  }

  /**
   * Interleaved decode undoes interleaved encode call by call, last call
   * first: the inits undo the flushes (`rans0`, then `rans1`), each round's
   * renormalisations undo that pair's puts (`rans0`, then `rans1`), and the
   * odd last token is undone last.
   */
  lemma {:induction false} InterleavedDecodeReversesEncode(n: nat)
    ensures Undo(InterleavedDecode(n), map[]) == (Reverse(InterleavedEncode(n)), map[])
  {
    var m := n / 2;
    var inits := [DecInit(0), DecInit(1)];
    InitsUndo();
    PairGetsUndo(m);
    LeftoverUndo(n);
    UndoAppend(inits, PairGets(m), map[]);
    UndoAppend(inits + PairGets(m), LeftoverDecode(n), map[]);
    var flushes, pairs, odd := [EncFlush(0), EncFlush(1)], Reverse(PairPuts(m)), Reverse(Leftover(n));
    assert Undo(InterleavedDecode(n), map[]) == ((flushes + pairs) + odd, map[]);
    ReverseAppend(Leftover(n) + PairPuts(m), [EncFlush(1), EncFlush(0)]);
    ReverseAppend(Leftover(n), PairPuts(m));
    ReversePair(EncFlush(1), EncFlush(0));
    assert Reverse(InterleavedEncode(n)) == flushes + (pairs + odd);
    assert (flushes + pairs) + odd == flushes + (pairs + odd);
  }

  /** `decInit` of `rans0` then `rans1` undoes the flushes of `rans0` and `rans1`. */
  lemma InitsUndo()
    ensures Undo([DecInit(0), DecInit(1)], map[]) == ([EncFlush(0), EncFlush(1)], map[])
  {
    var none: map<Lane, nat> := map[];
    assert [DecInit(0), DecInit(1)] == [DecInit(0)] + ([DecInit(1)] + []);
    UndoCons(DecInit(1), [], none);
    assert [EncFlush(1)] + [] == [EncFlush(1)];
    UndoCons(DecInit(0), [DecInit(1)] + [], none);
    assert [EncFlush(0)] + [EncFlush(1)] == [EncFlush(0), EncFlush(1)];
  }

  /** The odd last token's get and advance undo its put. */
  lemma LeftoverUndo(n: nat)
    ensures Undo(LeftoverDecode(n), map[]) == (Reverse(Leftover(n)), map[])
  {
    if n % 2 == 1 {
      GetAdvanceUndo(n - 1);
      ReverseSingle(EncPutSymbol(0, n - 1));
    }
  }

  /** Getting then advancing token `k` on lane 0 undoes its put. */
  lemma GetAdvanceUndo(k: nat)
    ensures Undo([DecGet(0, k), DecAdvanceSymbol(0, k)], map[]) == ([EncPutSymbol(0, k)], map[])
  {
    var get, advance := DecGet(0, k), DecAdvanceSymbol(0, k);
    var none: map<Lane, nat> := map[];
    assert [get, advance] == [get] + ([advance] + []);
    UndoCons(advance, [], none);
    assert [EncPutSymbol(0, k)] + [] == [EncPutSymbol(0, k)];
    assert Undo([advance] + [], none) == ([EncPutSymbol(0, k)], none);
    UndoCons(get, [advance] + [], none);
    assert [] + [EncPutSymbol(0, k)] == [EncPutSymbol(0, k)];
  }

  lemma {:induction false} PairGetsUndo(m: nat)
    ensures Undo(PairGets(m), map[]) == (Reverse(PairPuts(m)), map[])
  {
    if m > 0 {
      PairGetsUndo(m - 1);
      var i := 2 * m - 2;
      UndoAppend(PairGets(m - 1), PairRound(i), map[]);
      PairRoundUndo(i);
      var pair := [EncPutSymbol(1, i + 1), EncPutSymbol(0, i)];
      ReverseAppend(pair, PairPuts(m - 1));
      ReversePair(EncPutSymbol(1, i + 1), EncPutSymbol(0, i));
    }
  }

  /** One round's renormalisations undo lane 0's put of `i`, then lane 1's put of `i + 1`. */
  lemma PairRoundUndo(i: nat)
    ensures Undo(PairRound(i), map[]) == ([EncPutSymbol(0, i), EncPutSymbol(1, i + 1)], map[])
  {
    var first: map<Lane, nat> := map[0 := i];
    var both: map<Lane, nat> := map[0 := i, 1 := i + 1];
    var second: map<Lane, nat> := map[1 := i + 1];
    var none: map<Lane, nat> := map[];
    assert none[0 := i] == first;
    assert first[1 := i + 1] == both;
    assert both - {0} == second;
    assert second - {1} == none;
    var r := PairRound(i);
    var puts := [EncPutSymbol(0, i), EncPutSymbol(1, i + 1)];
    assert [EncPutSymbol(0, i)] + [EncPutSymbol(1, i + 1)] == puts;
    assert [] + puts == puts;
    var t5 := [r[5]] + [];
    UndoCons(r[5], [], second);
    assert [EncPutSymbol(1, i + 1)] + [] == [EncPutSymbol(1, i + 1)];
    assert Undo(t5, second) == ([EncPutSymbol(1, i + 1)], none);
    var t4 := [r[4]] + t5;
    UndoCons(r[4], t5, both);
    assert Undo(t4, both) == (puts, none);
    var t3 := [r[3]] + t4;
    UndoCons(r[3], t4, first);
    assert Undo(t3, first) == (puts, none);
    var t2 := [r[2]] + t3;
    UndoCons(r[2], t3, none);
    assert Undo(t2, none) == (puts, none);
    var t1 := [r[1]] + t2;
    UndoCons(r[1], t2, none);
    var t0 := [r[0]] + t1;
    UndoCons(r[0], t1, none);
    assert r == t0;
  }
}
