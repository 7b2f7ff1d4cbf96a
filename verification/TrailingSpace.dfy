/** `skip_trailing_space` (MySQL Server 5.7/include/m_string.h:283-334): the form that reads
    eight bytes at a time and the form for SPARC, which may only read aligned words. */
module TrailingSpace {
  import opened Bytes
  import opened Bits
  import opened ByteOrder
  import opened Hosts

  const SPACE: byte := 0x20

  // ---------------------------------------------------------------- the simple scan

  /** The length of a string without its trailing spaces. */
  function Trimmed(s: seq<byte>): nat {
    if s == [] || s[|s| - 1] != SPACE then |s| else Trimmed(s[..|s| - 1])
  }

  predicate AllSpace(s: seq<byte>) {
    forall i :: 0 <= i < |s| ==> s[i] == SPACE
  }

  /** The result is the one position with only spaces behind it and no space right before it. */
  lemma {:induction false} TrimmedUnique(s: seq<byte>, n: nat)
    requires n <= |s|
    ensures n == Trimmed(s) <==> AllSpace(s[n..]) && (n == 0 || s[n - 1] != SPACE)
  {
    if s == [] || s[|s| - 1] != SPACE {
      if n < |s| {
        assert s[n..][|s| - 1 - n] == s[|s| - 1];
      }
    } else {
      var t := s[..|s| - 1];
      if n < |s| {
        TrimmedUnique(t, n);
        assert s[n..] == t[n..] + [SPACE];
      } else {
        TrimmedUnique(t, 0);
        TrimmedBound(t);
      }
    }
  }

  lemma {:induction false} TrimmedBound(s: seq<byte>)
    ensures Trimmed(s) <= |s|
  {
    if s != [] {
      TrimmedBound(s[..|s| - 1]);
    }
  }

  /** Spaces at the end can be dropped beforehand. */
  lemma {:induction false} TrimmedDrop(s: seq<byte>, n: nat)
    requires n <= |s| && AllSpace(s[n..])
    ensures Trimmed(s) == Trimmed(s[..n])
  {
    if n == |s| {
      assert s[..n] == s;
    } else {
      var t := s[..|s| - 1];
      assert s[n..][|s| - 1 - n] == s[|s| - 1];
      assert forall i :: 0 <= i < |t[n..]| ==> t[n..][i] == s[n..][i];
      TrimmedDrop(t, n);
      assert t[..n] == s[..n];
    }
  }

  // ---------------------------------------------------------------- words of spaces

  function Spaces(n: nat): (s: seq<byte>)
    ensures |s| == n && AllSpace(s)
  {
    seq(n, i => SPACE)
  }

  lemma AllSpaceIsSpaces(s: seq<byte>)
    ensures AllSpace(s) <==> s == Spaces(|s|)
  {
  }

  lemma SpaceValue()
    ensures LeVal(Spaces(4)) == 0x2020_2020
    ensures LeVal(Spaces(8)) == 0x2020_2020_2020_2020
  {
    SumIsVal(Spaces(4), 0, 4);
    assert Spaces(4)[0..4] == Spaces(4);
    ValLong(Spaces(8), 0, 8);
    assert Spaces(8)[0..8] == Spaces(8);
    assert Spaces(8)[0..4] == Spaces(4) && Spaces(8)[4..8] == Spaces(4);
  }

  /** A word equals the word of spaces exactly when all its bytes are spaces. */
  lemma SpaceWord(bs: seq<byte>)
    requires |bs| == 4 || |bs| == 8
    ensures LeVal(bs) == (if |bs| == 4 then 0x2020_2020 else 0x2020_2020_2020_2020) <==> AllSpace(bs)
  {
    AllSpaceIsSpaces(bs);
    SpaceValue();
    ValRoundTrip(bs);
    ValRoundTrip(Spaces(|bs|));
  }

  lemma SpaceWordBig(bs: seq<byte>)
    requires |bs| == 4 || |bs| == 8
    ensures Native(Big, bs) == (if |bs| == 4 then 0x2020_2020 else 0x2020_2020_2020_2020) <==> AllSpace(bs)
  {
    SpaceWord(Reversed(bs));
    ReversedTwice(bs);
    assert AllSpace(Reversed(bs)) ==> forall i :: 0 <= i < |bs| ==> bs[i] == Reversed(Reversed(bs))[i];
  }

  /** Dropping a whole word of spaces. */
  lemma DropWord(s: seq<byte>, end: nat, w: nat)
    requires w <= end <= |s| && AllSpace(s[end - w..end])
    ensures Trimmed(s[..end]) == Trimmed(s[..end - w])
  {
    var t := s[..end];
    assert t[end - w..] == s[end - w..end];
    TrimmedDrop(t, end - w);
    assert t[..end - w] == s[..end - w];
  }

  lemma DropByte(s: seq<byte>, end: nat)
    requires 0 < end <= |s| && s[end - 1] == SPACE
    ensures Trimmed(s[..end]) == Trimmed(s[..end - 1])
  {
    assert s[..end][..end - 1] == s[..end - 1];
  }

  // ---------------------------------------------------------------- eight bytes at a time

  /** Every access is an index into `s`, so every byte read lies in the string. */
  method SkipTrailingSpace(s: seq<byte>) returns (end: nat)
    ensures end == Trimmed(s)
  {
    end := |s|;
    assert s[..end] == s;
    while end >= 8
      invariant end <= |s| && Trimmed(s) == Trimmed(s[..end])
    {
      if Uint8korr(s, end - 8) != 0x2020_2020_2020_2020 {
        break;
      }
      SpaceWord(s[end - 8..end]);
      DropWord(s, end, 8);
      end := end - 8;
    }
    while end > 0 && s[end - 1] == SPACE
      invariant end <= |s| && Trimmed(s) == Trimmed(s[..end])
    {
      DropByte(s, end);
      end := end - 1;
    }
  }

  // ---------------------------------------------------------------- aligned words

  /** An address at which a word of `w` bytes, four or eight, may be read. */
  predicate Aligned(x: int, w: nat) {
    if w == 4 then x % 4 == 0 else w == 8 && x % 8 == 0
  }

  /** Loads the word at an address, on a machine that requires it to be aligned. */
  function LoadWord(addr: nat, s: seq<byte>, o: nat, w: nat): nat
    requires Aligned(addr + o, w)
    requires o + w <= |s|
  {
    Native(Big, s[o..o + w])
  }

  /** The word boundaries around an address. */
  lemma WordBounds(x: nat, w: nat)
    requires w == 4 || w == 8
    ensures Aligned(x / w * w, w) && x - w < x / w * w <= x
    ensures Aligned((x + w - 1) / w * w, w) && x <= (x + w - 1) / w * w < x + w
  {
    DivMod(x, w);
    DivisionUnique(x / w * w, w, x / w, 0);
    RoundUp(x, w);
  }

  lemma WordStep(x: int, y: int, w: nat)
    requires Aligned(x, w) && Aligned(y, w) && x > y
    ensures x - w >= y && Aligned(x - w, w)
  {
    assert w == 4 || w == 8;
  }

  /** The form for SPARC, on a string at address `addr` with words of `w` bytes. */
  method SkipTrailingSpaceAligned(addr: nat, s: seq<byte>, w: nat) returns (end: nat)
    requires w == 4 || w == 8
    ensures end == Trimmed(s)
  {
    end := |s|;
    assert s[..end] == s;
    if |s| > 20 {
      var endWords := (addr + |s|) / w * w;
      var startWords := (addr + w - 1) / w * w;
      WordBounds(addr + |s|, w);
      WordBounds(addr, w);
      assert endWords > addr;
      while addr + end > endWords && s[end - 1] == SPACE
        invariant endWords <= addr + end && end <= |s| && Trimmed(s) == Trimmed(s[..end])
      {
        DropByte(s, end);
        end := end - 1;
      }
      if s[end - 1] == SPACE && startWords < endWords {
        end := SkipWords(addr, s, w, end, startWords);
      }
    }
    while end > 0 && s[end - 1] == SPACE
      invariant end <= |s| && Trimmed(s) == Trimmed(s[..end])
    {
      DropByte(s, end);
      end := end - 1;
    }
  }

  /** The middle zone; it is entered with `end` on a word boundary. */
  method SkipWords(addr: nat, s: seq<byte>, w: nat, start: nat, startWords: nat) returns (end: nat)
    requires start <= |s| && Aligned(addr + start, w)
    requires addr <= startWords <= addr + start && Aligned(startWords, w)
    requires Trimmed(s) == Trimmed(s[..start])
    ensures end <= start && Trimmed(s) == Trimmed(s[..end])
  {
    end := start;
    while addr + end > startWords
      invariant startWords <= addr + end && end <= start && Aligned(addr + end, w)
      invariant Trimmed(s) == Trimmed(s[..end])
    {
      WordStep(addr + end, startWords, w);
      if LoadWord(addr, s, end - w, w) != (if w == 4 then 0x2020_2020 else 0x2020_2020_2020_2020) {
        break;
      }
      SpaceWordBig(s[end - w..end]);
      DropWord(s, end, w);
      end := end - w;
    }
  }
}
