/** The hit paths of `my_b_read`, `my_b_get` and `my_b_write`, with `my_b_tell` and
    `my_b_bytes_in_cache` (MySQL Server 5.7/include/my_sys.h:363-401,
    MySQL Server 5.7/include/my_sys.h:506-537). Pointers are positions in the buffer. */
module IoCache {
  import opened Bytes

  /** A read cache as a value: the file offset of `request`, the buffer, and the positions. */
  datatype Reader = Reader(base: nat, buf: seq<byte>, request: nat, pos: nat, end: nat)

  /** The valid part of the buffer is a piece of the file. */
  ghost predicate Mirrors(r: Reader, file: seq<byte>) {
    && r.request <= r.pos <= r.end <= |r.buf|
    && r.base + (r.end - r.request) <= |file|
    && r.buf[r.request..r.end] == file[r.base..r.base + (r.end - r.request)]
  }

  function Tell(r: Reader): int {
    r.base + (r.pos - r.request)
  }

  function BytesInCache(r: Reader): int {
    r.end - r.pos
  }

  datatype Op = Get | Read(count: nat)

  function Wants(op: Op): nat {
    if op.Get? then 1 else op.count
  }

  /** The macro takes its fast path. */
  predicate Hit(r: Reader, op: Op) {
    if op.Get? then r.pos != r.end else r.pos + op.count <= r.end
  }

  function Advance(r: Reader, op: Op): Reader {
    r.(pos := r.pos + Wants(op))
  }

  // ---------------------------------------------------------------- the macros on a cache object

  class Cache {
    var posInFile: nat
    var buffer: array<byte>
    var requestPos: nat
    var readPos: nat
    var readEnd: nat
    var writePos: nat
    var writeEnd: nat

    ghost predicate Valid()
      reads this
    {
      requestPos <= readPos <= readEnd <= buffer.Length && requestPos <= writePos <= writeEnd <= buffer.Length
    }

    function View(): Reader
      reads this, buffer
    {
      Reader(posInFile, buffer[..], requestPos, readPos, readEnd)
    }

    constructor (buf: array<byte>, base: nat, valid: nat)
      requires valid <= buf.Length
      ensures Valid() && buffer == buf && View() == Reader(base, buf[..], 0, 0, valid)
      ensures writePos == 0 && writeEnd == buf.Length
    {
      buffer, posInFile := buf, base;
      requestPos, readPos, readEnd, writePos, writeEnd := 0, 0, valid, 0, buf.Length;
    }

    /** `my_b_read`; the result says whether the fast path served it. */
    method Read(dst: array<byte>, count: nat) returns (hit: bool)
      requires Valid() && count <= dst.Length && dst != buffer
      modifies this`readPos, dst
      ensures Valid() && hit == Hit(old(View()), Op.Read(count))
      ensures hit ==> View() == Advance(old(View()), Op.Read(count))
      ensures hit ==> dst[..] == Overwrite(old(dst[..]), 0, buffer[old(readPos)..old(readPos) + count])
      ensures !hit ==> View() == old(View()) && dst[..] == old(dst[..])
    {
      hit := readPos + count <= readEnd;
      if hit {
        forall i | 0 <= i < count {
          dst[i] := buffer[readPos + i];
        }
        readPos := readPos + count;
      }
    }

    /** `my_b_get`. */
    method Get() returns (b: Option<byte>)
      requires Valid()
      modifies this`readPos
      ensures Valid() && b.Some? == Hit(old(View()), Op.Get)
      ensures b.Some? ==> View() == Advance(old(View()), Op.Get) && b.value == buffer[old(readPos)]
      ensures b == None ==> View() == old(View())
    {
      if readPos != readEnd {
        readPos := readPos + 1;
        b := Some(buffer[readPos - 1]);
      } else {
        b := None;
      }
    }

    /** `my_b_write`: the bytes go to the write position and nowhere else. */
    method Write(src: seq<byte>) returns (hit: bool)
      requires Valid()
      modifies this`writePos, buffer
      ensures Valid() && hit == (old(writePos) + |src| <= writeEnd)
      ensures hit ==> writePos == old(writePos) + |src| && buffer[..] == Overwrite(old(buffer[..]), old(writePos), src)
      ensures !hit ==> writePos == old(writePos) && buffer[..] == old(buffer[..])
    {
      hit := writePos + |src| <= writeEnd;
      if hit {
        forall i | 0 <= i < |src| {
          buffer[writePos + i] := src[i];
        }
        writePos := writePos + |src|;
      }
    }
  }

  // ---------------------------------------------------------------- runs of reads

  /** A call is a hit exactly when the cache holds as many bytes as it wants, and then it takes
      that many from it. */
  lemma HitIff(r: Reader, op: Op)
    requires r.pos <= r.end
    ensures Hit(r, op) <==> Wants(op) <= BytesInCache(r)
    ensures BytesInCache(Advance(r, op)) == BytesInCache(r) - Wants(op) && Tell(Advance(r, op)) == Tell(r) + Wants(op)
  {
  }

  predicate AllHit(r: Reader, ops: seq<Op>)
    decreases |ops|
  {
    ops == [] || (Hit(r, ops[0]) && AllHit(Advance(r, ops[0]), ops[1..]))
  }

  function Final(r: Reader, ops: seq<Op>): Reader
    decreases |ops|
  {
    if ops == [] then r else Final(Advance(r, ops[0]), ops[1..])
  }

  /** The bytes delivered by a run, each taken from the buffer at the read position. */
  function Output(r: Reader, ops: seq<Op>): seq<byte>
    requires r.pos <= r.end <= |r.buf| && AllHit(r, ops)
    decreases |ops|
  {
    if ops == [] then [] else r.buf[r.pos..r.pos + Wants(ops[0])] + Output(Advance(r, ops[0]), ops[1..])
  }

  lemma {:induction false} OutputIsBuffer(r: Reader, ops: seq<Op>)
    requires r.pos <= r.end <= |r.buf| && AllHit(r, ops)
    ensures var f := Final(r, ops);
            && f == r.(pos := f.pos) && r.pos <= f.pos <= r.end
            && Output(r, ops) == r.buf[r.pos..f.pos]
    decreases |ops|
  {
    if ops != [] {
      var a := Advance(r, ops[0]);
      OutputIsBuffer(a, ops[1..]);
      var f := Final(r, ops);
      assert r.buf[r.pos..a.pos] + r.buf[a.pos..f.pos] == r.buf[r.pos..f.pos];
    }
  }

  /** Over every run of hits: the bytes delivered are exactly the slice of the file between
      the two values of `my_b_tell`, no access passes `read_end`, the cache still mirrors the
      file, and `my_b_tell` plus `my_b_bytes_in_cache` does not change. */
  lemma RunReadsFile(r: Reader, ops: seq<Op>, file: seq<byte>)
    requires Mirrors(r, file) && AllHit(r, ops)
    ensures var f := Final(r, ops);
            && Mirrors(f, file)
            && 0 <= Tell(r) <= Tell(f) <= |file|
            && Output(r, ops) == file[Tell(r)..Tell(f)]
            && Tell(f) + BytesInCache(f) == Tell(r) + BytesInCache(r) == r.base + (r.end - r.request)
  {
    OutputIsBuffer(r, ops);
    var f := Final(r, ops);
    var i, j := r.pos - r.request, f.pos - r.request;
    Window(r.buf, r.request, r.end, i, j);
    Window(file, r.base, r.base + (r.end - r.request), i, j);
    assert Output(r, ops) == file[r.base + i..r.base + j];
  }

  lemma Window(s: seq<byte>, a: nat, b: nat, i: nat, j: nat)
    requires a <= b <= |s| && i <= j <= b - a
    ensures s[a..b][i..j] == s[a + i..a + j]
  {
    var x, y := s[a..b][i..j], s[a + i..a + j];
    forall k | 0 <= k < j - i ensures x[k] == y[k] {
      assert s[a..b][i + k] == s[a + i + k];
    }
  }

  // ---------------------------------------------------------------- runs of writes

  /** The buffer and the write position after writes that all hit. */
  function Written(buf: seq<byte>, pos: nat, end: nat, data: seq<seq<byte>>): (r: (seq<byte>, nat))
    requires pos + |Flatten(data)| <= end <= |buf|
    ensures |r.0| == |buf| && r.1 == pos + |Flatten(data)|
    decreases |data|
  {
    if data == [] then (buf, pos)
    else
      var k := |data| - 1;
      FlattenLast(data);
      var (b, p) := Written(buf, pos, end, data[..k]);
      (Overwrite(b, p, data[k]), p + |data[k]|)
  }

  lemma FlattenLast(data: seq<seq<byte>>)
    requires data != []
    ensures Flatten(data) == Flatten(data[..|data| - 1]) + data[|data| - 1]
  {
    var k := |data| - 1;
    assert data == data[..k] + [data[k]];
    JoinedPrefix(data[..k], [data[k]], k);
  }

  /** A run of writes that hit appends exactly their data, one behind the other, and leaves
      every other byte alone, those from `write_end` on included. */
  lemma {:induction false} RunAppends(buf: seq<byte>, pos: nat, end: nat, data: seq<seq<byte>>)
    requires pos + |Flatten(data)| <= end <= |buf|
    ensures Written(buf, pos, end, data).0 == Overwrite(buf, pos, Flatten(data))
    decreases |data|
  {
    if data == [] {
      assert Overwrite(buf, pos, []) == buf;
    } else {
      var k := |data| - 1;
      FlattenLast(data);
      RunAppends(buf, pos, end, data[..k]);
      OverwriteTwice(buf, pos, Flatten(data[..k]), data[k]);
    }
  }
}
