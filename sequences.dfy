/** Reversal of a sequence, shared by the schedule and buffer models. */
module Sequences {

  function Reverse<T>(s: seq<T>): (r: seq<T>)
    ensures |r| == |s|
    ensures forall k :: 0 <= k < |s| ==> r[k] == s[|s| - 1 - k]
  {
    if s == [] then [] else Reverse(s[1..]) + [s[0]]
  }

  lemma {:induction false} ReverseAppend<T>(a: seq<T>, b: seq<T>)
    ensures Reverse(a + b) == Reverse(b) + Reverse(a)
  {
    if a == [] {
      assert a + b == b;
    } else {
      assert (a + b)[0] == a[0];
      assert (a + b)[1..] == a[1..] + b;
      ReverseAppend(a[1..], b);
      calc {
        Reverse(a + b);
        Reverse(a[1..] + b) + [a[0]];
        (Reverse(b) + Reverse(a[1..])) + [a[0]];
        Reverse(b) + (Reverse(a[1..]) + [a[0]]);
        Reverse(b) + Reverse(a);
      }
    }
  }

  lemma ReverseSingle<T>(x: T)
    ensures Reverse([x]) == [x]
  {
    assert [x][1..] == [];
  }

  lemma ReversePair<T>(x: T, y: T)
    ensures Reverse([x, y]) == [y, x]
  {
    assert [x, y] == [x] + [y];
    ReverseAppend([x], [y]);
    ReverseSingle(x);
    ReverseSingle(y);
  }
}
