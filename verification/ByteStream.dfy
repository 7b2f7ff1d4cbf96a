/** `CByteStream`, the byte queue between the receive thread and the application
    (TcpSocketDll/CByteStream.cpp). */
module ByteStream {
  import opened Bytes

  class Stream {
    var buf: seq<byte>

    constructor ()
      ensures buf == []
    {
      buf := [];
    }

    /** Appends the first `size` bytes of `src`, one by one; a negative size appends nothing. */
    method Write(src: seq<byte>, size: int)
      requires size <= |src|
      modifies this
      ensures buf == old(buf) + src[..if size < 0 then 0 else size]
      ensures buf == Apply(old(buf), Op.Write(src[..if size < 0 then 0 else size])).buf
    {
      var i := 0;
      while i < size
        invariant 0 <= i && (i <= size || i == 0)
        invariant buf == old(buf) + src[..i]
      {
        buf := buf + [src[i]];
        i := i + 1;
      }
    }

    /** Copies the first `size` bytes out and erases them. */
    method Read(size: nat) returns (dst: seq<byte>)
      requires size <= |buf|
      modifies this
      ensures dst == old(buf)[..size] && buf == old(buf)[size..]
      ensures buf == Apply(old(buf), Op.Read(size)).buf && dst == Apply(old(buf), Op.Read(size)).out
    {
      dst := buf[..size];
      buf := buf[size..];
    }

    /** Copies the first `size` bytes out. */
    method Peek(size: nat) returns (dst: seq<byte>)
      requires size <= |buf|
      ensures dst == buf[..size]
      ensures dst == Apply(buf, Op.Peek(size)).out
    {
      dst := buf[..size];
    }

    method GetSize() returns (n: nat)
      ensures n == |buf|
    {
      n := |buf|;
    }
  }

  datatype Op = Write(data: seq<byte>) | Read(size: nat) | Peek(size: nat)

  datatype Result = Result(buf: seq<byte>, out: seq<byte>)

  predicate InRange(buf: seq<byte>, op: Op) {
    op.Write? || op.size <= |buf|
  }

  function Apply(buf: seq<byte>, op: Op): Result
    requires InRange(buf, op)
  {
    match op
    case Write(data) => Result(buf + data, [])
    case Read(size) => Result(buf[size..], buf[..size])
    case Peek(size) => Result(buf, buf[..size])
  }

  predicate RunInRange(buf: seq<byte>, ops: seq<Op>)
    decreases |ops|
  {
    ops == [] || (InRange(buf, ops[0]) && RunInRange(Apply(buf, ops[0]).buf, ops[1..]))
  }

  function Final(buf: seq<byte>, ops: seq<Op>): seq<byte>
    requires RunInRange(buf, ops)
    decreases |ops|
  {
    if ops == [] then buf else Final(Apply(buf, ops[0]).buf, ops[1..])
  }

  /** The bytes handed out by the reads of a run, in order. */
  function ReadOut(buf: seq<byte>, ops: seq<Op>): seq<byte>
    requires RunInRange(buf, ops)
    decreases |ops|
  {
    if ops == [] then []
    else
      var r := Apply(buf, ops[0]);
      (if ops[0].Read? then r.out else []) + ReadOut(r.buf, ops[1..])
  }

  function WrittenIn(ops: seq<Op>): seq<byte> {
    if ops == [] then [] else (if ops[0].Write? then ops[0].data else []) + WrittenIn(ops[1..])
  }

  /** Conservation: over every run, what was read followed by what is still buffered is what
      was buffered at the start followed by everything written. */
  lemma {:induction false} BytesConserved(buf: seq<byte>, ops: seq<Op>)
    requires RunInRange(buf, ops)
    ensures ReadOut(buf, ops) + Final(buf, ops) == buf + WrittenIn(ops)
    decreases |ops|
  {
    if ops != [] {
      var r, tail := Apply(buf, ops[0]), ops[1..];
      BytesConserved(r.buf, tail);
      var out, rest, more := ReadOut(r.buf, tail), Final(r.buf, tail), WrittenIn(tail);
      assert [] + out == out && [] + more == more;
      match ops[0]
      case Write(data) =>
        Associative(buf, data, more);
      case Read(size) =>
        Associative(buf[..size], out, rest);
        Associative(buf[..size], buf[size..], more);
        assert buf[..size] + buf[size..] == buf;
      case Peek(size) =>
    }
  }

  /** Every read and every peek gives as many bytes as were asked for, the first ones buffered. */
  lemma GivesFront(buf: seq<byte>, op: Op)
    requires InRange(buf, op) && !op.Write?
    ensures |Apply(buf, op).out| == op.size && Apply(buf, op).out <= buf
    ensures op.Read? ==> Apply(buf, op).out + Apply(buf, op).buf == buf
    ensures op.Peek? ==> Apply(buf, op).buf == buf
  {
    assert buf == buf[..op.size] + buf[op.size..];
  }

  /** The bytes asked for by the reads of a run. */
  function Asked(ops: seq<Op>): nat {
    if ops == [] then 0 else (if ops[0].Read? then ops[0].size else 0) + Asked(ops[1..])
  }

  lemma {:induction false} ReadsGiveAll(buf: seq<byte>, ops: seq<Op>)
    requires RunInRange(buf, ops)
    ensures |ReadOut(buf, ops)| == Asked(ops)
    decreases |ops|
  {
    if ops != [] {
      ReadsGiveAll(Apply(buf, ops[0]).buf, ops[1..]);
      if !ops[0].Write? {
        GivesFront(buf, ops[0]);
      }
    }
  }

  /** First in, first out: over every run, the reads hand out exactly as many bytes as they ask
      for, and these are the first of all bytes buffered at the start and written since. */
  lemma FirstInFirstOut(buf: seq<byte>, ops: seq<Op>)
    requires RunInRange(buf, ops)
    ensures Asked(ops) <= |buf + WrittenIn(ops)|
    ensures ReadOut(buf, ops) == (buf + WrittenIn(ops))[..Asked(ops)]
    ensures Final(buf, ops) == (buf + WrittenIn(ops))[Asked(ops)..]
  {
    BytesConserved(buf, ops);
    ReadsGiveAll(buf, ops);
    var out, rest := ReadOut(buf, ops), Final(buf, ops);
    assert (out + rest)[..|out|] == out && (out + rest)[|out|..] == rest;
  }

  /** What each read and each peek of a run gives, in order. */
  function Outputs(buf: seq<byte>, ops: seq<Op>): seq<seq<byte>>
    requires RunInRange(buf, ops)
    decreases |ops|
  {
    if ops == [] then []
    else
      var r := Apply(buf, ops[0]);
      (if ops[0].Write? then [] else [r.out]) + Outputs(r.buf, ops[1..])
  }

  /** The run with one write before each read or peek and one at the end, `pend` being what is
      still to be written. */
  function OneWriteEach(pend: seq<byte>, ops: seq<Op>): seq<Op>
    decreases |ops|
  {
    if ops == [] then [Write(pend)]
    else if ops[0].Write? then OneWriteEach(pend + ops[0].data, ops[1..])
    else [Write(pend), ops[0]] + OneWriteEach([], ops[1..])
  }

  lemma {:induction false} OneWriteSame(buf: seq<byte>, pend: seq<byte>, ops: seq<Op>)
    ensures RunInRange(buf + pend, ops) <==> RunInRange(buf, OneWriteEach(pend, ops))
    ensures RunInRange(buf + pend, ops) ==>
              && Outputs(buf + pend, ops) == Outputs(buf, OneWriteEach(pend, ops))
              && Final(buf + pend, ops) == Final(buf, OneWriteEach(pend, ops))
    decreases |ops|
  {
    var norm := OneWriteEach(pend, ops);
    if ops == [] {
      assert norm[1..] == [];
    } else if ops[0].Write? {
      Associative(buf, pend, ops[0].data);
      OneWriteSame(buf, pend + ops[0].data, ops[1..]);
    } else {
      var rest := OneWriteEach([], ops[1..]);
      assert norm[1..] == [ops[0]] + rest && norm[1..][1..] == rest;
      if InRange(buf + pend, ops[0]) {
        var b := Apply(buf + pend, ops[0]).buf;
        OneWriteSame(b, [], ops[1..]);
        assert b + [] == b;
      }
    }
  }

  /** The pieces in which bytes are written do not matter. Two runs with the same reads and
      peeks, and the same bytes written before each of them, are possible together, give the
      same results one by one, and leave the same bytes buffered. */
  lemma ChunkingIrrelevant(buf: seq<byte>, ops: seq<Op>, ops': seq<Op>)
    requires OneWriteEach([], ops) == OneWriteEach([], ops')
    ensures RunInRange(buf, ops) <==> RunInRange(buf, ops')
    ensures RunInRange(buf, ops) ==> Outputs(buf, ops) == Outputs(buf, ops') && Final(buf, ops) == Final(buf, ops')
  {
    assert buf + [] == buf;
    OneWriteSame(buf, [], ops);
    OneWriteSame(buf, [], ops');
  }

  /** Two reads are one longer read, and a peek foretells the read without disturbing it. */
  lemma ReadsCompose(buf: seq<byte>, a: nat, b: nat)
    requires a + b <= |buf|
    ensures Apply(buf, Read(a)).out + Apply(Apply(buf, Read(a)).buf, Read(b)).out == Apply(buf, Read(a + b)).out
    ensures Apply(Apply(buf, Read(a)).buf, Read(b)).buf == Apply(buf, Read(a + b)).buf
    ensures Apply(buf, Peek(a)).out == Apply(Apply(buf, Peek(a)).buf, Read(a)).out
    ensures Apply(Apply(buf, Peek(a)).buf, Read(a)) == Apply(buf, Read(a))
  {
    assert buf[..a] + buf[a..][..b] == buf[..a + b];
    assert buf[a..][b..] == buf[a + b..];
  }
}
