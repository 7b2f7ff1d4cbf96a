/** Bytes, sequences of bytes, and the vocabulary shared by the other modules. */
module Bytes {

  type byte = x: int | 0 <= x < 256

  datatype Option<+T> = None | Some(value: T)

  /** The error number of a lock that is taken. */
  const EBUSY := 16

  /** The error number of a wait that ended without a signal (my_thread.h). */
  const ETIMEDOUT := 145

  function Min(a: int, b: int): int {
    if a < b then a else b
  }

  /** The first `n` strings of a list, joined. */
  function Joined(xs: seq<seq<byte>>, n: nat): seq<byte>
    requires n <= |xs|
  {
    if n == 0 then [] else Joined(xs, n - 1) + xs[n - 1]
  }

  function Flatten(xs: seq<seq<byte>>): seq<byte> {
    Joined(xs, |xs|)
  }

  lemma {:induction false} JoinedPrefix(xs: seq<seq<byte>>, ys: seq<seq<byte>>, n: nat)
    requires n <= |xs|
    ensures Joined(xs + ys, n) == Joined(xs, n)
  {
    if n > 0 {
      JoinedPrefix(xs, ys, n - 1);
      assert (xs + ys)[n - 1] == xs[n - 1];
    }
  }

  lemma {:induction false} FlattenAppend(xs: seq<seq<byte>>, ys: seq<seq<byte>>)
    ensures Flatten(xs + ys) == Flatten(xs) + Flatten(ys)
  {
    JoinedAppend(xs, ys, |ys|);
  }

  lemma {:induction false} JoinedAppend(xs: seq<seq<byte>>, ys: seq<seq<byte>>, n: nat)
    requires n <= |ys|
    ensures Joined(xs + ys, |xs| + n) == Flatten(xs) + Joined(ys, n)
  {
    if n == 0 {
      JoinedPrefix(xs, ys, |xs|);
    } else {
      JoinedAppend(xs, ys, n - 1);
      JoinedNext(xs + ys, |xs| + n, Flatten(xs), Joined(ys, n - 1), ys[n - 1]);
    }
  }

  lemma JoinedNext(xs: seq<seq<byte>>, n: nat, s: seq<byte>, t: seq<byte>, u: seq<byte>)
    requires 0 < n <= |xs| && Joined(xs, n - 1) == s + t && xs[n - 1] == u
    ensures Joined(xs, n) == s + (t + u)
  {
    Associative(s, t, u);
  }

  ghost predicate NoneEmpty(xs: seq<seq<byte>>) {
    forall i :: 0 <= i < |xs| ==> xs[i] != []
  }

  /** Joining more strings extends the result, strictly so when one of them is not empty. */
  lemma {:induction false} JoinedGrows(xs: seq<seq<byte>>, m: nat, n: nat)
    requires m <= n <= |xs|
    requires NoneEmpty(xs)
    ensures Joined(xs, m) <= Joined(xs, n)
    ensures |Joined(xs, n)| - |Joined(xs, m)| >= n - m
  {
    if m < n {
      JoinedGrows(xs, m, n - 1);
    }
  }

  lemma Associative(s: seq<byte>, t: seq<byte>, u: seq<byte>)
    ensures (s + t) + u == s + (t + u)
  {
  }

  /** `s` with the bytes from `off` on replaced by `bs`. */
  function Overwrite(s: seq<byte>, off: nat, bs: seq<byte>): (r: seq<byte>)
    requires off + |bs| <= |s|
    ensures |r| == |s|
    ensures r[off..off + |bs|] == bs
    ensures forall i :: 0 <= i < |s| && !(off <= i < off + |bs|) ==> r[i] == s[i]
  {
    s[..off] + bs + s[off + |bs|..]
  }

  lemma OverwriteTwice(s: seq<byte>, off: nat, bs: seq<byte>, cs: seq<byte>)
    requires off + |bs| + |cs| <= |s|
    ensures Overwrite(Overwrite(s, off, bs), off + |bs|, cs) == Overwrite(s, off, bs + cs)
  {
  }
}
