/**
 * Reference definitions for the symbol histogram that both versions of
 * `SymbolStatistics::buildFrequencyTable` compute: occurrence counts, the
 * smallest and largest token (what `std::minmax_element` finds) and the sum
 * of a table of counts.
 */
module TokenCounts {

  /** Number of times `v` occurs in `tokens`, counted front to back. */
  function Occurrences(tokens: seq<nat>, v: int): (r: nat)
    ensures r == multiset(tokens)[v]
  {
    if tokens == [] then 0
    else
      var last := tokens[|tokens| - 1];
      assert tokens == tokens[..|tokens| - 1] + [last];
      Occurrences(tokens[..|tokens| - 1], v) + (if last == v then 1 else 0)
  }

  /** Smallest token: the value `*minmax.first` reads. */
  function MinToken(tokens: seq<nat>): (m: nat)
    requires |tokens| > 0
    ensures m in tokens
    ensures forall i :: 0 <= i < |tokens| ==> m <= tokens[i]
  {
    if |tokens| == 1 then tokens[0]
    else
      var rest := MinToken(tokens[1..]);
      assert forall i :: 1 <= i < |tokens| ==> tokens[i] == tokens[1..][i - 1];
      if tokens[0] <= rest then tokens[0] else rest
  }

  /** Largest token: the value `*minmax.second` reads. */
  function MaxToken(tokens: seq<nat>): (m: nat)
    requires |tokens| > 0
    ensures m in tokens
    ensures forall i :: 0 <= i < |tokens| ==> tokens[i] <= m
  {
    if |tokens| == 1 then tokens[0]
    else
      var rest := MaxToken(tokens[1..]);
      assert forall i :: 1 <= i < |tokens| ==> tokens[i] == tokens[1..][i - 1];
      if tokens[0] >= rest then tokens[0] else rest
  }

  /** The counts table for the symbols `lo, lo + 1, ..., lo + len - 1`. */
  function Histogram(tokens: seq<nat>, lo: int, len: nat): (h: seq<nat>)
    ensures |h| == len
    ensures forall k :: 0 <= k < len ==> h[k] == multiset(tokens)[lo + k]
  {
    var h := seq(len, k requires 0 <= k < len => Occurrences(tokens, lo + k));
    assert forall k :: 0 <= k < len ==> h[k] == Occurrences(tokens, lo + k);
    h
  }

  /** The zero-filled table is the histogram of no tokens. */
  lemma EmptyHistogram(lo: int, len: nat)
    ensures Histogram([], lo, len) == seq(len, _ => 0)
  {
  }

  /**
   * One step of the counting loop: adding `tokens[i]` to the prefix
   * `tokens[..i]` increments the entry `tokens[i] - lo`, which is in range.
   */
  lemma CountStep(tokens: seq<nat>, i: nat, lo: int, hi: int)
    requires i < |tokens|
    requires AllWithin(tokens, lo, hi)
    ensures 0 <= tokens[i] - lo < hi - lo + 1
    ensures Histogram(tokens[..i + 1], lo, hi - lo + 1)
         == Histogram(tokens[..i], lo, hi - lo + 1)[tokens[i] - lo := Histogram(tokens[..i], lo, hi - lo + 1)[tokens[i] - lo] + 1]
  {
    assert tokens[..i + 1] == tokens[..i] + [tokens[i]];
    HistogramAppend(tokens[..i], tokens[i], lo, hi - lo + 1);
  }

  /** Every token lies in `[lo, hi]`. */
  predicate AllWithin(tokens: seq<nat>, lo: int, hi: int)
  {
    forall i :: 0 <= i < |tokens| ==> lo <= tokens[i] <= hi
  }

  /** Sum of a table of counts. */
  function Sum(s: seq<nat>): (r: nat)
  {
    if s == [] then 0 else Sum(s[..|s| - 1]) + s[|s| - 1]
  }

  lemma {:induction false} SumAppend(a: seq<nat>, b: seq<nat>)
    ensures Sum(a + b) == Sum(a) + Sum(b)
  {
    if b == [] {
      assert a + b == a;
    } else {
      assert (a + b)[..|a + b| - 1] == a + b[..|b| - 1];
      SumAppend(a, b[..|b| - 1]);
    }
  }

  /** Incrementing one entry of a table raises its sum by exactly one. */
  lemma {:induction false} SumIncrement(s: seq<nat>, k: nat)
    requires k < |s|
    ensures Sum(s[k := s[k] + 1]) == Sum(s) + 1
  {
    var t := s[k := s[k] + 1];
    if k == |s| - 1 {
      assert t[..|t| - 1] == s[..|s| - 1];
    } else {
      SumIncrement(s[..|s| - 1], k);
      assert t[..|t| - 1] == s[..|s| - 1][k := s[k] + 1];
    }
  }

  /**
   * Appending one token `x` to the input increments exactly the entry
   * `x - lo` of the histogram: the step the counting loop takes.
   */
  lemma HistogramAppend(tokens: seq<nat>, x: nat, lo: int, len: nat)
    requires lo <= x < lo + len
    ensures Histogram(tokens + [x], lo, len)
         == Histogram(tokens, lo, len)[x - lo := Histogram(tokens, lo, len)[x - lo] + 1]
  {
    assert multiset(tokens + [x]) == multiset(tokens) + multiset{x};
  }

  /**
   * When every token lies in the table's range, the table accounts for
   * every token: its counts sum to the number of tokens.
   */
  lemma {:induction false} HistogramTotal(tokens: seq<nat>, lo: int, len: nat)
    requires AllWithin(tokens, lo, lo + len - 1)
    ensures Sum(Histogram(tokens, lo, len)) == |tokens|
  {
    if tokens == [] {
      var h := Histogram(tokens, lo, len);
      ZeroSum(h);
    } else {
      var init, x := tokens[..|tokens| - 1], tokens[|tokens| - 1];
      assert tokens == init + [x];
      HistogramTotal(init, lo, len);
      HistogramAppend(init, x, lo, len);
      SumIncrement(Histogram(init, lo, len), x - lo);
    }
  }

  lemma {:induction false} ZeroSum(s: seq<nat>)
    requires forall k :: 0 <= k < |s| ==> s[k] == 0
    ensures Sum(s) == 0
  {
    if s != [] {
      ZeroSum(s[..|s| - 1]);
    }
  }
}
