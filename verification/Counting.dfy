/** Adding up a quantity over a list of threads. */
module Counting {

  function Sum<T>(f: T -> nat, s: seq<T>): nat {
    if s == [] then 0 else f(s[0]) + Sum(f, s[1..])
  }

  /** The sum when one entry changes. */
  lemma {:induction false} SumUpdate<T>(f: T -> nat, s: seq<T>, i: nat, v: T)
    requires i < |s|
    ensures Sum(f, s[i := v]) == Sum(f, s) - f(s[i]) + f(v)
    ensures Sum(f, s) >= f(s[i])
  {
    if i > 0 {
      SumUpdate(f, s[1..], i - 1, v);
      assert s[i := v][1..] == s[1..][i - 1 := v];
    } else {
      assert s[i := v][1..] == s[1..];
    }
  }

  lemma {:induction false} SumAppend<T>(f: T -> nat, s: seq<T>, v: T)
    ensures Sum(f, s + [v]) == Sum(f, s) + f(v)
  {
    if s != [] {
      SumAppend(f, s[1..], v);
      assert (s + [v])[1..] == s[1..] + [v];
    } else {
      assert s + [v] == [v];
    }
  }
}
