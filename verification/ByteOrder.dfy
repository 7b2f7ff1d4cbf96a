/** The machine-independent byte format, low byte first
    (MySQL Server 5.7/include/byte_order_generic.h, MySQL Server 5.7/include/my_byteorder.h). */
module ByteOrder {
  import opened Bytes
  import opened Bits

  type uint16 = x: int | 0 <= x < 0x1_0000
  type uint32 = x: int | 0 <= x < 0x1_0000_0000
  type uint64 = x: int | 0 <= x < 0x1_0000_0000_0000_0000

  const INT_MIN24 := -0x80_0000
  const INT_MAX24 := 0x7F_FFFF

  // ---------------------------------------------------------------- the format

  function Pow256(n: nat): (r: nat)
    ensures r >= 1
  {
    if n == 0 then 1 else 256 * Pow256(n - 1)
  }

  /** The n low bytes of a number, lowest first; a negative number counts as its two's complement. */
  function Le(n: nat, v: int): (bs: seq<byte>)
    ensures |bs| == n
  {
    if n == 0 then [] else [v % 256] + Le(n - 1, v / 256)
  }

  function LeVal(bs: seq<byte>): (v: nat)
    ensures v < Pow256(|bs|)
  {
    if bs == [] then 0 else bs[0] + 256 * LeVal(bs[1..])
  }

  /** The two's complement reading of an unsigned value of n bytes. */
  function Signed(n: nat, u: int): int {
    if 2 * u >= Pow256(n) then u - Pow256(n) else u
  }

  lemma SplitMod(v: int, m: nat)
    requires m > 0
    ensures v % (256 * m) == v % 256 + 256 * ((v / 256) % m)
  {
    var q, r := (v / 256) / m, (v / 256) % m;
    DivMod(v / 256, m);
    assert q * (256 * m) == 256 * (q * m);
    DivisionUnique(v, 256 * m, q, v % 256 + 256 * r);
  }

  /** Reading what was stored gives the value back, reduced to its width. */
  lemma {:induction false} LeRoundTrip(n: nat, v: int)
    ensures LeVal(Le(n, v)) == v % Pow256(n)
  {
    if n > 0 {
      LeRoundTrip(n - 1, v / 256);
      SplitMod(v, Pow256(n - 1));
    }
  }

  /** Storing what was read reproduces the bytes. */
  lemma {:induction false} ValRoundTrip(bs: seq<byte>)
    ensures Le(|bs|, LeVal(bs)) == bs
  {
    if bs != [] {
      ValRoundTrip(bs[1..]);
      var v := LeVal(bs);
      assert v % 256 == bs[0] && v / 256 == LeVal(bs[1..]);
    }
  }

  /** A number in two's complement range is recovered with its sign. */
  lemma SignedRoundTrip(n: nat, v: int)
    requires 0 - Pow256(n) <= 2 * v < Pow256(n)
    ensures Signed(n, LeVal(Le(n, v))) == v
  {
    LeRoundTrip(n, v);
    if v >= 0 {
      DivisionUnique(v, Pow256(n), 0, v);
    } else {
      DivisionUnique(v, Pow256(n), -1, v + Pow256(n));
    }
  }

  /** Storing in two halves. */
  lemma {:induction false} LeHalves(m: nat, n: nat, v: int)
    ensures Le(m + n, v) == Le(m, v) + Le(n, v / Pow256(m))
    decreases m
  {
    if m > 0 {
      LeHalves(m - 1, n, v / 256);
      DivTwice(v, Pow256(m - 1));
    }
  }

  lemma DivTwice(v: int, m: nat)
    requires m > 0
    ensures v / 256 / m == v / (256 * m)
  {
    var q, r := (v / 256) / m, (v / 256) % m;
    DivMod(v / 256, m);
    assert q * (256 * m) == 256 * (q * m);
    DivisionUnique(v, 256 * m, q, v % 256 + 256 * r);
  }

  lemma LeSame(n: nat, v: int, u: int)
    requires v % Pow256(n) == u % Pow256(n)
    ensures Le(n, v) == Le(n, u)
  {
    LeRoundTrip(n, v);
    LeRoundTrip(n, u);
    ValRoundTrip(Le(n, v));
    ValRoundTrip(Le(n, u));
  }

  // ---------------------------------------------------------------- explicit widths

  /** A byte as a number to calculate with. */
  function At(b: seq<byte>, i: nat): int
    requires i < |b|
  {
    b[i]
  }

  /** The sum that the shift-and-add loads compute, for up to four bytes. */
  function Sum(b: seq<byte>, o: nat, n: nat): int
    requires o + n <= |b| && n <= 4
  {
    (if n > 0 then At(b, o) else 0) + (if n > 1 then At(b, o + 1) * 0x100 else 0)
    + (if n > 2 then At(b, o + 2) * 0x1_0000 else 0) + (if n > 3 then At(b, o + 3) * 0x100_0000 else 0)
  }

  lemma SumIsVal(b: seq<byte>, o: nat, n: nat)
    requires o + n <= |b| && n <= 4
    ensures Sum(b, o, n) == LeVal(b[o..o + n])
    decreases n
  {
    if n > 0 {
      SumIsVal(b, o + 1, n - 1);
      assert b[o..o + n][1..] == b[o + 1..o + 1 + (n - 1)];
    }
  }

  lemma {:induction false} ValAppend(a: seq<byte>, b: seq<byte>)
    ensures LeVal(a + b) == LeVal(a) + Pow256(|a|) * LeVal(b)
  {
    if a == [] {
      assert a + b == b;
    } else {
      ValAppend(a[1..], b);
      assert (a + b)[1..] == a[1..] + b;
      Regroup(Pow256(|a| - 1), LeVal(b));
    }
  }

  lemma Regroup(x: int, y: int)
    ensures 256 * (x * y) == (256 * x) * y
  {
  }

  lemma Pow256Values()
    ensures Pow256(1) == 0x100 && Pow256(2) == 0x1_0000 && Pow256(3) == 0x100_0000
    ensures Pow256(4) == 0x1_0000_0000 && Pow256(5) == 0x100_0000_0000
    ensures Pow256(6) == 0x1_0000_0000_0000 && Pow256(8) == 0x1_0000_0000_0000_0000
  {
    assert Pow256(0) == 1;
    assert Pow256(5) == 256 * Pow256(4);
    assert Pow256(7) == 256 * Pow256(6);
  }

  /** A longer load is put together from its first four bytes and the rest. */
  lemma ValLong(b: seq<byte>, o: nat, n: nat)
    requires o + n <= |b| && n >= 4
    ensures LeVal(b[o..o + n]) == LeVal(b[o..o + 4]) + 0x1_0000_0000 * LeVal(b[o + 4..o + n])
  {
    assert b[o..o + n] == b[o..o + 4] + b[o + 4..o + n];
    ValAppend(b[o..o + 4], b[o + 4..o + n]);
    Pow256Values();
  }

  // ---------------------------------------------------------------- loads

  function Uint2korr(b: seq<byte>, o: nat): (r: uint16)
    requires o + 2 <= |b|
    ensures r == LeVal(b[o..o + 2])
  {
    SumIsVal(b, o, 2);
    (At(b, o) + At(b, o + 1) * 0x100) % 0x1_0000
  }

  function Uint3korr(b: seq<byte>, o: nat): (r: uint32)
    requires o + 3 <= |b|
    ensures r == LeVal(b[o..o + 3])
  {
    SumIsVal(b, o, 3);
    (At(b, o) + At(b, o + 1) * 0x100 + At(b, o + 2) * 0x1_0000) % 0x1_0000_0000
  }

  function Uint4korr(b: seq<byte>, o: nat): (r: uint32)
    requires o + 4 <= |b|
    ensures r == LeVal(b[o..o + 4])
  {
    SumIsVal(b, o, 4);
    (At(b, o) + At(b, o + 1) * 0x100 + At(b, o + 2) * 0x1_0000 + At(b, o + 3) * 0x100_0000) % 0x1_0000_0000
  }

  function Uint5korr(b: seq<byte>, o: nat): (r: uint64)
    requires o + 5 <= |b|
    ensures r == LeVal(b[o..o + 5])
  {
    SumIsVal(b, o + 4, 1);
    ValLong(b, o, 5);
    (Uint4korr(b, o) + At(b, o + 4) * 0x1_0000_0000) % 0x1_0000_0000_0000_0000
  }

  function Uint6korr(b: seq<byte>, o: nat): (r: uint64)
    requires o + 6 <= |b|
    ensures r == LeVal(b[o..o + 6])
  {
    SumIsVal(b, o + 4, 2);
    ValLong(b, o, 6);
    (Uint4korr(b, o) + At(b, o + 4) * 0x1_0000_0000 + At(b, o + 5) * 0x100_0000_0000) % 0x1_0000_0000_0000_0000
  }

  function Uint8korr(b: seq<byte>, o: nat): (r: uint64)
    requires o + 8 <= |b|
    ensures r == LeVal(b[o..o + 8])
  {
    ValLong(b, o, 8);
    NoWrap(Uint4korr(b, o), Uint4korr(b, o + 4));
    (Uint4korr(b, o) + Uint4korr(b, o + 4) * 0x1_0000_0000) % 0x1_0000_0000_0000_0000
  }

  lemma NoWrap(lo: uint32, hi: uint32)
    ensures (lo + hi * 0x1_0000_0000) % 0x1_0000_0000_0000_0000 == lo + hi * 0x1_0000_0000
  {
  }

  /** A cast of an unsigned value to a signed type of n bytes wraps. */
  function Cast(n: nat, u: int): int {
    Signed(n, u % Pow256(n))
  }

  function Sint2korr(b: seq<byte>, o: nat): (r: int)
    requires o + 2 <= |b|
    ensures r == Signed(2, LeVal(b[o..o + 2]))
  {
    SumIsVal(b, o, 2);
    Pow256Values();
    Cast(2, At(b, o) + At(b, o + 1) * 0x100)
  }

  function Sint4korr(b: seq<byte>, o: nat): (r: int)
    requires o + 4 <= |b|
    ensures r == Signed(4, LeVal(b[o..o + 4]))
  {
    SumIsVal(b, o, 4);
    Pow256Values();
    Cast(4, At(b, o) + At(b, o + 1) * 0x100 + At(b, o + 2) * 0x1_0000 + At(b, o + 3) * 0x100_0000)
  }

  function Sint8korr(b: seq<byte>, o: nat): (r: int)
    requires o + 8 <= |b|
    ensures r == Signed(8, LeVal(b[o..o + 8]))
  {
    Pow256Values();
    Cast(8, Uint8korr(b, o))
  }

  /** The 24-bit load is assembled with bitwise or, and extends the sign by hand. */
  function Sint3korr(b: seq<byte>, o: nat): int
    requires o + 3 <= |b|
  {
    var a2 := At(b, o + 2) * 0x1_0000;
    var a1 := At(b, o + 1) * 0x100;
    Cast(4, if And(At(b, o + 2), 128) != 0 then Or(Or(Or(255 * 0x100_0000, a2), a1), At(b, o)) else Or(Or(a2, a1), At(b, o)))
  }

  lemma Pow2Values()
    ensures Pow2(7) == 128 && Pow2(8) == 0x100 && Pow2(16) == 0x1_0000 && Pow2(24) == 0x100_0000
  {
    assert Pow2(0) == 1 && Pow2(2) == 4 && Pow2(4) == 16 && Pow2(6) == 64;
    assert Pow2(10) == 1024 && Pow2(12) == 4096 && Pow2(14) == 16384;
    assert Pow2(18) == 0x4_0000 && Pow2(20) == 0x10_0000 && Pow2(22) == 0x40_0000;
  }

  /** or-ing shifted bytes adds them. */
  lemma OrBytes(b0: nat, b1: nat, high: nat)
    requires b0 < 256 && b1 < 256
    ensures Or(Or(high * 0x1_0000, b1 * 0x100), b0) == b0 + 0x100 * b1 + 0x1_0000 * high
  {
    OrHigh(b1, high);
    Or8(Or(high * 0x1_0000, b1 * 0x100), b0);
  }

  lemma OrHigh(b1: nat, high: nat)
    requires b1 < 256
    ensures Or(high * 0x1_0000, b1 * 0x100) == high * 0x1_0000 + b1 * 0x100
    ensures Or(high * 0x1_0000, b1 * 0x100) % 0x100 == 0
  {
    var x, y := high * 0x1_0000, b1 * 0x100;
    ShiftedMultiples(b1, high, x, y);
    Or16(x, y);
  }

  lemma ShiftedMultiples(b1: nat, high: nat, x: nat, y: nat)
    requires x == high * 0x1_0000 && y == b1 * 0x100
    ensures x % 0x1_0000 == 0 && (x + y) % 0x100 == 0
  {
    assert x + y == (high * 0x100 + b1) * 0x100;
  }

  lemma Or8(x: nat, y: nat)
    requires x % 0x100 == 0 && y < 0x100
    ensures Or(x, y) == x + y
  {
    Pow2Values();
    OrIsSum(x, y, 8);
  }

  lemma Or16(x: nat, y: nat)
    requires x % 0x1_0000 == 0 && y < 0x1_0000
    ensures Or(x, y) == x + y
  {
    Pow2Values();
    OrIsSum(x, y, 16);
  }

  lemma OrTop(b2: nat)
    requires b2 < 256
    ensures Or(255 * 0x100_0000, b2 * 0x1_0000) == (255 * 256 + b2) * 0x1_0000
  {
    Pow2Values();
    OrIsSum(255 * 0x100_0000, b2 * 0x1_0000, 24);
  }

  lemma TopBit(x: nat)
    requires x < 256
    ensures And(x, 128) != 0 <==> x >= 128
  {
    Pow2Values();
    AndHighMask(x, 7, 8);
  }

  lemma CastValues(u: nat)
    ensures u < 0x1_0000_0000 ==> Cast(4, u) == if u >= 0x8000_0000 then u - 0x1_0000_0000 else u
    ensures u < 0x100_0000 ==> Signed(3, u) == if u >= 0x80_0000 then u - 0x100_0000 else u
  {
    Pow256Values();
  }

  /** The 24-bit load is the two's complement reading of the unsigned one. */
  lemma Sint3korrIsSigned(b: seq<byte>, o: nat)
    requires o + 3 <= |b|
    ensures Sint3korr(b, o) == Signed(3, Uint3korr(b, o))
    ensures INT_MIN24 <= Sint3korr(b, o) <= INT_MAX24
  {
    var b0, b1, b2: nat := At(b, o), At(b, o + 1), At(b, o + 2);
    var u := b0 + 0x100 * b1 + 0x1_0000 * b2;
    assert Uint3korr(b, o) == u;
    CastValues(u);
    Assembled(b, o);
    if b2 >= 128 {
      CastValues(u + 255 * 0x100_0000);
    }
  }

  /** The assembly with or, and the sign test on the top bit, as sums. */
  lemma Assembled(b: seq<byte>, o: nat)
    requires o + 3 <= |b|
    ensures var u := At(b, o) + 0x100 * At(b, o + 1) + 0x1_0000 * At(b, o + 2);
            Sint3korr(b, o) == Cast(4, if At(b, o + 2) >= 128 then u + 255 * 0x100_0000 else u)
  {
    var b0, b1, b2: nat := At(b, o), At(b, o + 1), At(b, o + 2);
    TopBit(b2);
    OrTop(b2);
    OrBytes(b0, b1, if b2 >= 128 then 255 * 256 + b2 else b2);
  }

  // ---------------------------------------------------------------- stores

  lemma Bytes4(v: int)
    ensures Le(2, v) == [v % 256, v / 0x100 % 256]
    ensures Le(3, v) == [v % 256, v / 0x100 % 256, v / 0x1_0000 % 256]
    ensures Le(4, v) == [v % 256, v / 0x100 % 256, v / 0x1_0000 % 256, v / 0x100_0000 % 256]
  {
    var v1, v2, v3 := v / 256, v / 256 / 256, v / 256 / 256 / 256;
    assert v2 == v / 0x1_0000 && v3 == v / 0x100_0000;
    assert Le(1, v1) == [v1 % 256] && Le(1, v2) == [v2 % 256] && Le(1, v3) == [v3 % 256];
    assert Le(2, v1) == [v1 % 256] + Le(1, v2) && Le(2, v2) == [v2 % 256] + Le(1, v3);
    assert Le(3, v1) == [v1 % 256] + Le(2, v2);
  }

  lemma LeLong(n: nat, v: int)
    requires n >= 4
    ensures Le(n, v) == Le(4, v) + Le(n - 4, v / 0x1_0000_0000)
  {
    LeHalves(4, n - 4, v);
    Pow256Values();
  }

  lemma Bytes6(v: int)
    ensures Le(5, v) == Le(4, v) + [v / 0x1_0000_0000 % 256]
    ensures Le(6, v) == Le(4, v) + [v / 0x1_0000_0000 % 256, v / 0x100_0000_0000 % 256]
  {
    LeLong(5, v);
    LeLong(6, v);
    var h := v / 0x1_0000_0000;
    Bytes4(h);
    assert Le(1, h) == [h % 256] + Le(0, h / 256);
    assert h / 0x100 == v / 0x100_0000_0000;
  }

  method Int2store(t: array<byte>, o: nat, a: uint16)
    requires o + 2 <= t.Length
    modifies t
    ensures t[..] == Overwrite(old(t[..]), o, Le(2, a))
  {
    Bytes4(a);
    t[o] := a % 256;
    t[o + 1] := a / 0x100 % 256;
  }

  method Int3store(t: array<byte>, o: nat, a: uint32)
    requires o + 3 <= t.Length
    modifies t
    ensures t[..] == Overwrite(old(t[..]), o, Le(3, a))
  {
    Bytes4(a);
    t[o] := a % 256;
    t[o + 1] := a / 0x100 % 256;
    t[o + 2] := a / 0x1_0000 % 256;
  }

  method Int4store(t: array<byte>, o: nat, a: uint32)
    requires o + 4 <= t.Length
    modifies t
    ensures t[..] == Overwrite(old(t[..]), o, Le(4, a))
  {
    Bytes4(a);
    t[o] := a % 256;
    t[o + 1] := a / 0x100 % 256;
    t[o + 2] := a / 0x1_0000 % 256;
    t[o + 3] := a / 0x100_0000 % 256;
  }

  method Int5store(t: array<byte>, o: nat, a: uint64)
    requires o + 5 <= t.Length
    modifies t
    ensures t[..] == Overwrite(old(t[..]), o, Le(5, a))
  {
    Bytes4(a);
    Bytes6(a);
    t[o] := a % 256;
    t[o + 1] := a / 0x100 % 256;
    t[o + 2] := a / 0x1_0000 % 256;
    t[o + 3] := a / 0x100_0000 % 256;
    t[o + 4] := a / 0x1_0000_0000 % 256;
  }

  method Int6store(t: array<byte>, o: nat, a: uint64)
    requires o + 6 <= t.Length
    modifies t
    ensures t[..] == Overwrite(old(t[..]), o, Le(6, a))
  {
    Bytes4(a);
    Bytes6(a);
    t[o] := a % 256;
    t[o + 1] := a / 0x100 % 256;
    t[o + 2] := a / 0x1_0000 % 256;
    t[o + 3] := a / 0x100_0000 % 256;
    t[o + 4] := a / 0x1_0000_0000 % 256;
    t[o + 5] := a / 0x100_0000_0000 % 256;
  }

  /** The eight-byte store is two four-byte stores. */
  method Int8store(t: array<byte>, o: nat, a: uint64)
    requires o + 8 <= t.Length
    modifies t
    ensures t[..] == Overwrite(old(t[..]), o, Le(8, a))
  {
    Int4store(t, o, a % 0x1_0000_0000);
    Int4store(t, o + 4, a / 0x1_0000_0000);
    OverwriteTwice(old(t[..]), o, Le(4, a % 0x1_0000_0000), Le(4, a / 0x1_0000_0000));
    Bytes8(a);
  }

  lemma Bytes8(a: uint64)
    ensures Le(8, a) == Le(4, a % 0x1_0000_0000) + Le(4, a / 0x1_0000_0000)
  {
    LeLong(8, a);
    Pow256Values();
    LeSame(4, a, a % 0x1_0000_0000);
  }

  // ---------------------------------------------------------------- records of fields

  datatype Field = Field(width: nat, value: nat)

  /** The widths for which there is a store and a load. */
  predicate IsWidth(n: nat) {
    n == 2 || n == 3 || n == 4 || n == 5 || n == 6 || n == 8
  }

  function Load(n: nat, b: seq<byte>, o: nat): (r: nat)
    requires IsWidth(n) && o + n <= |b|
    ensures r == LeVal(b[o..o + n])
  {
    match n
    case 2 => Uint2korr(b, o)
    case 3 => Uint3korr(b, o)
    case 4 => Uint4korr(b, o)
    case 5 => Uint5korr(b, o)
    case 6 => Uint6korr(b, o)
    case _ => Uint8korr(b, o)
  }

  function Total(widths: seq<nat>): nat {
    if widths == [] then 0 else widths[0] + Total(widths[1..])
  }

  predicate Fits(b: seq<byte>, o: nat, widths: seq<nat>) {
    o + Total(widths) <= |b| && forall i :: 0 <= i < |widths| ==> IsWidth(widths[i])
  }

  function Widths(fs: seq<Field>): seq<nat> {
    seq(|fs|, i requires 0 <= i < |fs| => fs[i].width)
  }

  /** Stores fields one behind the other. */
  function StoreAll(b: seq<byte>, o: nat, fs: seq<Field>): (r: seq<byte>)
    requires Fits(b, o, Widths(fs))
    ensures |r| == |b|
    decreases |fs|
  {
    if fs == [] then b
    else
      assert Widths(fs)[1..] == Widths(fs[1..]);
      StoreAll(Overwrite(b, o, Le(fs[0].width, fs[0].value)), o + fs[0].width, fs[1..])
  }

  /** Loads fields one behind the other. */
  function LoadAll(b: seq<byte>, o: nat, widths: seq<nat>): (r: seq<Field>)
    requires Fits(b, o, widths)
    ensures Widths(r) == widths
    decreases |widths|
  {
    if widths == [] then []
    else [Field(widths[0], Load(widths[0], b, o))] + LoadAll(b, o + widths[0], widths[1..])
  }

  /** Stores reach only their own bytes. */
  lemma {:induction false} StoreAllFrame(b: seq<byte>, o: nat, fs: seq<Field>, i: nat)
    requires Fits(b, o, Widths(fs)) && i < |b|
    requires i < o || i >= o + Total(Widths(fs))
    ensures StoreAll(b, o, fs)[i] == b[i]
    decreases |fs|
  {
    if fs != [] {
      assert Widths(fs)[1..] == Widths(fs[1..]);
      StoreAllFrame(Overwrite(b, o, Le(fs[0].width, fs[0].value)), o + fs[0].width, fs[1..], i);
    }
  }

  /** Fields whose values fit their widths are read back unchanged. */
  lemma {:induction false} FieldsRoundTrip(b: seq<byte>, o: nat, fs: seq<Field>)
    requires Fits(b, o, Widths(fs))
    requires forall i :: 0 <= i < |fs| ==> fs[i].value < Pow256(fs[i].width)
    ensures LoadAll(StoreAll(b, o, fs), o, Widths(fs)) == fs
    decreases |fs|
  {
    if fs != [] {
      var n, tail := fs[0].width, fs[1..];
      assert Widths(fs)[1..] == Widths(tail);
      FieldsRoundTrip(Overwrite(b, o, Le(n, fs[0].value)), o + n, tail);
      HeadRoundTrip(b, o, fs);
      assert fs == [fs[0]] + tail;
    }
  }

  lemma HeadRoundTrip(b: seq<byte>, o: nat, fs: seq<Field>)
    requires Fits(b, o, Widths(fs)) && fs != [] && fs[0].value < Pow256(fs[0].width)
    ensures Load(fs[0].width, StoreAll(b, o, fs), o) == fs[0].value
  {
    var n, v := fs[0].width, fs[0].value;
    var b1, r := Overwrite(b, o, Le(n, v)), StoreAll(b, o, fs);
    assert Widths(fs)[1..] == Widths(fs[1..]);
    forall i | o <= i < o + n ensures r[i] == b1[i] {
      StoreAllFrame(b1, o + n, fs[1..], i);
    }
    assert r[o..o + n] == b1[o..o + n];
    LeRoundTrip(n, v);
    DivisionUnique(v, Pow256(n), 0, v);
  }

  /** Storing again what was loaded changes nothing. */
  lemma {:induction false} BufferRoundTrip(b: seq<byte>, o: nat, widths: seq<nat>)
    requires Fits(b, o, widths)
    ensures StoreAll(b, o, LoadAll(b, o, widths)) == b
    decreases |widths|
  {
    if widths != [] {
      var n, fs := widths[0], LoadAll(b, o, widths);
      ValRoundTrip(b[o..o + n]);
      assert Overwrite(b, o, b[o..o + n]) == b;
      assert fs[1..] == LoadAll(b, o + n, widths[1..]);
      BufferRoundTrip(b, o + n, widths[1..]);
    }
  }

  lemma Reduce24(v: int)
    ensures Le(3, v % 0x1_0000_0000) == Le(3, v)
  {
    Pow256Values();
    assert v % 0x1_0000_0000 % 0x100_0000 == v % 0x100_0000;
    LeSame(3, v % 0x1_0000_0000, v);
  }

  /** The signed 24-bit load inverts the 24-bit store on its whole range. */
  lemma Int3RoundTrip(b: seq<byte>, o: nat, v: int)
    requires o + 3 <= |b| && INT_MIN24 <= v <= INT_MAX24
    ensures Sint3korr(Overwrite(b, o, Le(3, v % 0x1_0000_0000)), o) == v
  {
    Reduce24(v);
    var r := Overwrite(b, o, Le(3, v));
    assert r[o..o + 3] == Le(3, v);
    Sint3korrIsSigned(r, o);
    assert Pow256(3) == 0x100_0000 by {
      Pow256Values();
    }
    SignedRoundTrip(3, v);
  }
}
