/** The same functions on different machines: native loads on x86
    (MySQL Server 5.7/include/byte_order_generic_x86.h), a big-endian host
    (MySQL Server 5.7/include/big_endian.h), a little-endian host and one whose doubles have
    their two words swapped (MySQL Server 5.7/include/little_endian.h). Floats are bit
    patterns here. */
module Hosts {
  import opened Bytes
  import opened ByteOrder

  /** Mixed: little-endian, but the high word of a double comes first in memory. */
  datatype Host = Little | Big | Mixed

  function Reversed(s: seq<byte>): (r: seq<byte>)
    ensures |r| == |s| && forall i :: 0 <= i < |s| ==> r[i] == s[|s| - 1 - i]
  {
    seq(|s|, i requires 0 <= i < |s| => s[|s| - 1 - i])
  }

  function Swapped(s: seq<byte>): seq<byte>
    requires |s| == 8
  {
    s[4..] + s[..4]
  }

  /** How an integer or a float of n bytes lies in memory. */
  function Memory(h: Host, n: nat, v: int): seq<byte> {
    if h == Big then Reversed(Le(n, v)) else Le(n, v)
  }

  /** The integer or float whose bytes in memory are these. */
  function Native(h: Host, bs: seq<byte>): nat {
    LeVal(if h == Big then Reversed(bs) else bs)
  }

  function DoubleMemory(h: Host, v: uint64): (m: seq<byte>)
    ensures |m| == 8
  {
    if h == Mixed then Swapped(Le(8, v)) else Memory(h, 8, v)
  }

  function NativeDouble(h: Host, bs: seq<byte>): (v: uint64)
    requires |bs| == 8
  {
    Pow256Values();
    if h == Mixed then LeVal(Swapped(bs)) else Native(h, bs)
  }

  lemma Exact4(v: uint32)
    ensures LeVal(Le(4, v)) == v
  {
    LeRoundTrip(4, v);
    Pow256Values();
  }

  lemma Exact8(v: uint64)
    ensures LeVal(Le(8, v)) == v
  {
    LeRoundTrip(8, v);
    Pow256Values();
  }

  lemma ReversedTwice(s: seq<byte>)
    ensures Reversed(Reversed(s)) == s
  {
  }

  lemma SwappedTwice(s: seq<byte>)
    requires |s| == 8
    ensures Swapped(Swapped(s)) == s
  {
  }

  /** memcpy into a buffer. */
  method Copy(t: array<byte>, o: nat, bs: seq<byte>)
    requires o + |bs| <= t.Length
    modifies t
    ensures t[..] == Overwrite(old(t[..]), o, bs)
  {
    forall i | 0 <= i < |bs| {
      t[o + i] := bs[i];
    }
  }

  /** Four byte assignments. */
  method Put4(t: array<byte>, o: nat, x0: byte, x1: byte, x2: byte, x3: byte)
    requires o + 4 <= t.Length
    modifies t
    ensures t[..] == Overwrite(old(t[..]), o, [x0, x1, x2, x3])
  {
    t[o], t[o + 1], t[o + 2], t[o + 3] := x0, x1, x2, x3;
  }

  /** Eight byte assignments. */
  method Put8(t: array<byte>, o: nat, x0: byte, x1: byte, x2: byte, x3: byte, x4: byte, x5: byte, x6: byte, x7: byte)
    requires o + 8 <= t.Length
    modifies t
    ensures t[..] == Overwrite(old(t[..]), o, [x0, x1, x2, x3, x4, x5, x6, x7])
  {
    Put4(t, o, x0, x1, x2, x3);
    Put4(t, o + 4, x4, x5, x6, x7);
    OverwriteTwice(old(t[..]), o, [x0, x1, x2, x3], [x4, x5, x6, x7]);
    assert [x0, x1, x2, x3] + [x4, x5, x6, x7] == [x0, x1, x2, x3, x4, x5, x6, x7];
  }

  lemma Eight(m: seq<byte>)
    requires |m| == 8
    ensures Reversed(m) == [m[7], m[6], m[5], m[4], m[3], m[2], m[1], m[0]]
    ensures Swapped(m) == [m[4], m[5], m[6], m[7], m[0], m[1], m[2], m[3]]
  {
  }

  // ---------------------------------------------------------------- float4, float8

  /** What the host's `float4store` and `float8store` write for a float that lies in memory
      as `m`: the big-endian code reverses, the little-endian code copies. */
  function FloatBytes(h: Host, m: seq<byte>): seq<byte> {
    if h == Big then Reversed(m) else m
  }

  method Float4store(h: Host, t: array<byte>, o: nat, v: uint32)
    requires o + 4 <= t.Length
    modifies t
    ensures t[..] == Overwrite(old(t[..]), o, FloatBytes(h, Memory(h, 4, v)))
  {
    var m := Memory(h, 4, v);
    if h == Big {
      Put4(t, o, m[3], m[2], m[1], m[0]);
    } else {
      Copy(t, o, m);
    }
  }

  method Float8store(h: Host, t: array<byte>, o: nat, v: uint64)
    requires o + 8 <= t.Length
    modifies t
    ensures t[..] == Overwrite(old(t[..]), o, FloatBytes(h, DoubleMemory(h, v)))
  {
    var m := DoubleMemory(h, v);
    if h == Big {
      Eight(m);
      Put8(t, o, m[7], m[6], m[5], m[4], m[3], m[2], m[1], m[0]);
    } else {
      Copy(t, o, m);
    }
  }

  function Float4get(h: Host, b: seq<byte>, o: nat): nat
    requires o + 4 <= |b|
  {
    Native(h, if h == Big then [b[o + 3], b[o + 2], b[o + 1], b[o]] else b[o..o + 4])
  }

  function Float8get(h: Host, b: seq<byte>, o: nat): uint64
    requires o + 8 <= |b|
  {
    NativeDouble(h, if h == Big then [b[o + 7], b[o + 6], b[o + 5], b[o + 4], b[o + 3], b[o + 2], b[o + 1], b[o]]
                    else b[o..o + 8])
  }

  lemma Float4Value(h: Host, b: seq<byte>, o: nat)
    requires o + 4 <= |b|
    ensures Float4get(h, b, o) == LeVal(b[o..o + 4])
  {
    if h == Big {
      assert [b[o + 3], b[o + 2], b[o + 1], b[o]] == Reversed(b[o..o + 4]);
      ReversedTwice(b[o..o + 4]);
    }
  }

  /** One wire format for four-byte floats: every host writes the low byte first, and every
      host reads back what any host wrote. */
  lemma Float4HostIndependent(h: Host, h': Host, b: seq<byte>, o: nat, v: uint32)
    requires o + 4 <= |b|
    ensures FloatBytes(h, Memory(h, 4, v)) == Le(4, v)
    ensures Float4get(h', Overwrite(b, o, FloatBytes(h, Memory(h, 4, v))), o) == v
  {
    ReversedTwice(Le(4, v));
    Float4Value(h', Overwrite(b, o, Le(4, v)), o);
    Exact4(v);
  }

  lemma Float8Bytes(h: Host, v: uint64)
    ensures FloatBytes(h, DoubleMemory(h, v)) == if h == Mixed then Swapped(Le(8, v)) else Le(8, v)
  {
    ReversedTwice(Le(8, v));
  }

  lemma Float8Value(h: Host, b: seq<byte>, o: nat)
    requires o + 8 <= |b|
    ensures Float8get(h, b, o) == LeVal(if h == Mixed then Swapped(b[o..o + 8]) else b[o..o + 8])
  {
    var bs := b[o..o + 8];
    if h == Big {
      Eight(bs);
      ReversedTwice(bs);
    }
  }

  /** Every host reads back its own doubles, and big- and little-endian hosts each other's. */
  lemma Float8RoundTrip(h: Host, h': Host, b: seq<byte>, o: nat, v: uint64)
    requires o + 8 <= |b|
    requires h == h' || (h != Mixed && h' != Mixed)
    ensures Float8get(h', Overwrite(b, o, FloatBytes(h, DoubleMemory(h, v))), o) == v
  {
    Float8Bytes(h, v);
    Float8Value(h', Overwrite(b, o, FloatBytes(h, DoubleMemory(h, v))), o);
    SwappedTwice(Le(8, v));
    Exact8(v);
  }

  lemma SwapHalves(lo: seq<byte>, hi: seq<byte>)
    requires |lo| == 4 && |hi| == 4
    ensures Swapped(lo + hi) == lo + hi <==> lo == hi
  {
    assert Swapped(lo + hi) == hi + lo;
    if hi + lo == lo + hi {
      assert (hi + lo)[..4] == hi && (lo + hi)[..4] == lo;
    }
  }

  /** On a host with swapped words `float8store` copies memory as it lies. Its bytes are in
      the shared format if and only if the two words of the double are equal. */
  lemma MixedFloat8Iff(v: uint64)
    ensures FloatBytes(Mixed, DoubleMemory(Mixed, v)) == Le(8, v) <==> v % 0x1_0000_0000 == v / 0x1_0000_0000
  {
    Float8Bytes(Mixed, v);
    Bytes8(v);
    SwapHalves(Le(4, v % 0x1_0000_0000), Le(4, v / 0x1_0000_0000));
    Exact4(v % 0x1_0000_0000);
    Exact4(v / 0x1_0000_0000);
  }

  /** A case in which they differ: 1.0, whose pattern is 0x3FF0_0000_0000_0000. */
  lemma MixedFloat8Differs()
    ensures FloatBytes(Mixed, DoubleMemory(Mixed, 0x3FF0_0000_0000_0000)) != Le(8, 0x3FF0_0000_0000_0000)
  {
    MixedFloat8Iff(0x3FF0_0000_0000_0000);
  }

  // ---------------------------------------------------------------- doublestore, doubleget

  /** `doublestore` and `doubleget` exchange the words on a host that has them swapped. */
  function DoubleBytes(h: Host, m: seq<byte>): seq<byte>
    requires |m| == 8
  {
    if h == Mixed then Swapped(m) else m
  }

  method Doublestore(h: Host, t: array<byte>, o: nat, v: uint64)
    requires o + 8 <= t.Length
    modifies t
    ensures t[..] == Overwrite(old(t[..]), o, DoubleBytes(h, DoubleMemory(h, v)))
  {
    var m := DoubleMemory(h, v);
    if h == Mixed {
      Eight(m);
      Put8(t, o, m[4], m[5], m[6], m[7], m[0], m[1], m[2], m[3]);
    } else {
      Copy(t, o, m);
    }
  }

  function Doubleget(h: Host, b: seq<byte>, o: nat): uint64
    requires o + 8 <= |b|
  {
    NativeDouble(h, DoubleBytes(h, b[o..o + 8]))
  }

  /** On every host the pair is inverse, and on the host with swapped words it is this pair
      that writes the low byte first. */
  lemma DoubleRoundTrip(h: Host, b: seq<byte>, o: nat, v: uint64)
    requires o + 8 <= |b|
    ensures Doubleget(h, Overwrite(b, o, DoubleBytes(h, DoubleMemory(h, v))), o) == v
    ensures h == Mixed ==> DoubleBytes(h, DoubleMemory(h, v)) == Le(8, v)
  {
    SwappedTwice(Le(8, v));
    SwappedTwice(DoubleMemory(h, v));
    ReversedTwice(Le(8, v));
    Exact8(v);
  }

  // ---------------------------------------------------------------- short, long

  lemma LowBytes(a: int)
    ensures a % 0x1_0000_0000 % 256 == a % 256 && a % 0x1_0000_0000 / 0x100 % 256 == a / 0x100 % 256
  {
  }

  method ShortstoreBig(t: array<byte>, o: nat, a: int)
    requires o + 2 <= t.Length && -0x8000 <= a < 0x8000
    modifies t
    ensures t[..] == Overwrite(old(t[..]), o, Memory(Big, 2, a))
  {
    var temp := a % 0x1_0000_0000;
    LowBytes(a);
    Bytes4(a);
    t[o + 1] := temp % 256;
    t[o] := temp / 0x100 % 256;
  }

  method LongstoreBig(t: array<byte>, o: nat, a: int)
    requires o + 4 <= t.Length && -0x8000_0000 <= a < 0x8000_0000
    modifies t
    ensures t[..] == Overwrite(old(t[..]), o, Memory(Big, 4, a))
  {
    Bytes4(a);
    t[o + 3] := a % 256;
    t[o + 2] := a / 0x100 % 256;
    t[o + 1] := a / 0x1_0000 % 256;
    t[o] := a / 0x100_0000 % 256;
  }

  function ShortgetBig(b: seq<byte>, o: nat): int
    requires o + 2 <= |b|
  {
    Cast(2, At(b, o + 1) + At(b, o) * 0x100)
  }

  function LonggetBig(b: seq<byte>, o: nat): int
    requires o + 4 <= |b|
  {
    Signed(4, Native(Big, [b[o], b[o + 1], b[o + 2], b[o + 3]]))
  }

  /** The little-endian host stores through the unsigned type. */
  method ShortstoreLittle(t: array<byte>, o: nat, a: int)
    requires o + 2 <= t.Length && -0x8000 <= a < 0x8000
    modifies t
    ensures t[..] == Overwrite(old(t[..]), o, Memory(Little, 2, a))
  {
    Int2store(t, o, a % 0x1_0000);
    Pow256Values();
    LeSame(2, a, a % 0x1_0000);
  }

  method LongstoreLittle(t: array<byte>, o: nat, a: int)
    requires o + 4 <= t.Length && -0x8000_0000 <= a < 0x8000_0000
    modifies t
    ensures t[..] == Overwrite(old(t[..]), o, Memory(Little, 4, a))
  {
    Int4store(t, o, a % 0x1_0000_0000);
    Pow256Values();
    LeSame(4, a, a % 0x1_0000_0000);
  }

  lemma ShortgetBigValue(b: seq<byte>, o: nat)
    requires o + 2 <= |b|
    ensures ShortgetBig(b, o) == Signed(2, Native(Big, b[o..o + 2]))
  {
    var r := Reversed(b[o..o + 2]);
    SumIsVal(r, 0, 2);
    assert r[0..2] == r;
    Pow256Values();
  }

  /** The native pairs are inverse on their own host, for every short and every long. */
  lemma ShortRoundTrip(b: seq<byte>, o: nat, a: int)
    requires o + 2 <= |b| && -0x8000 <= a < 0x8000
    ensures ShortgetBig(Overwrite(b, o, Memory(Big, 2, a)), o) == a
    ensures Sint2korr(Overwrite(b, o, Memory(Little, 2, a)), o) == a
  {
    var r := Overwrite(b, o, Memory(Big, 2, a));
    assert r[o..o + 2] == Memory(Big, 2, a);
    ShortgetBigValue(r, o);
    ReversedTwice(Le(2, a));
    assert Pow256(2) == 0x1_0000 by {
      Pow256Values();
    }
    SignedRoundTrip(2, a);
  }

  lemma LongRoundTrip(b: seq<byte>, o: nat, a: int)
    requires o + 4 <= |b| && -0x8000_0000 <= a < 0x8000_0000
    ensures LonggetBig(Overwrite(b, o, Memory(Big, 4, a)), o) == a
    ensures Sint4korr(Overwrite(b, o, Memory(Little, 4, a)), o) == a
  {
    var r := Overwrite(b, o, Memory(Big, 4, a));
    assert [r[o], r[o + 1], r[o + 2], r[o + 3]] == r[o..o + 4] == Memory(Big, 4, a);
    ReversedTwice(Le(4, a));
    assert Pow256(4) == 0x1_0000_0000 by {
      Pow256Values();
    }
    SignedRoundTrip(4, a);
  }

  // ---------------------------------------------------------------- x86

  /** The native loads of x86 agree with the shift-and-add loads at every offset, signed and
      unsigned, and its native stores write what the generic stores write. */
  lemma X86Agrees(b: seq<byte>, o: nat, n: nat, v: int)
    requires n in {2, 4, 8} && o + n <= |b|
    ensures Native(Little, b[o..o + n]) == Load(n, b, o)
    ensures Signed(n, Native(Little, b[o..o + n])) ==
              if n == 2 then Sint2korr(b, o) else if n == 4 then Sint4korr(b, o) else Sint8korr(b, o)
    ensures Load(n, Overwrite(b, o, Memory(Little, n, v)), o) == v % Pow256(n)
  {
    LeRoundTrip(n, v);
  }
}
