/** Counting events in the traces the model records. */
module Traces {

  /** How many times `x` occurs in `t`. */
  function Count<T(==)>(t: seq<T>, x: T): nat {
    if |t| == 0 then 0 else (if t[0] == x then 1 else 0) + Count(t[1..], x)
  }

  lemma {:induction false} CountAppend<T>(a: seq<T>, b: seq<T>, x: T)
    ensures Count(a + b, x) == Count(a, x) + Count(b, x)
  {
    if |a| > 0 {
      assert (a + b)[1..] == a[1..] + b;
      CountAppend(a[1..], b, x);
    } else {
      assert a + b == b;
    }
  }

  lemma {:induction false} CountPositive<T>(t: seq<T>, x: T)
    ensures x in t <==> Count(t, x) > 0
  {
    if |t| > 0 {
      CountPositive(t[1..], x);
      assert t == [t[0]] + t[1..];
    }
  }
}
