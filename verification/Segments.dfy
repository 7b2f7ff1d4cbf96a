/** What travels on the wire, and how a buffer handed to `Send` is cut into packets
    (TcpSocketDll/CTcpSocket.h, TcpSocketDll/CTcpSocket.cpp). */
module Segments {
  import opened Bytes

  /** `m_connectMap` compares address and port only. */
  datatype Addr = Addr(ip: nat, port: nat)

  /** What a DATA packet carries. */
  datatype Segment = Segment(num: int, data: seq<byte>)

  datatype Packet = Establish1(num: int) | Establish2(num: int) | Data(seg: Segment) | Ack(num: int)

  /** `m_nSeq`. */
  function Num(p: Packet): int {
    if p.Data? then p.seg.num else p.num
  }

  /** A node of the list of packets waiting to be acknowledged. */
  datatype Node = Node(addr: Addr, packet: Packet)

  const DATA_LEN := 1024

  /** The payloads into which a buffer is cut. */
  function Fragments(buf: seq<byte>): seq<seq<byte>>
    decreases |buf|
  {
    if buf == [] then []
    else if |buf| < DATA_LEN then [buf]
    else [buf[..DATA_LEN]] + Fragments(buf[DATA_LEN..])
  }

  lemma FlattenOne(x: seq<byte>)
    ensures Flatten([x]) == x
  {
    assert Joined([x], 1) == Joined([x], 0) + x;
  }

  /** Nothing is lost, added or reordered by the cutting, no payload is empty, none is
      longer than a packet can carry, and only the last one may be short. */
  lemma {:induction false} FragmentsRoundTrip(buf: seq<byte>)
    ensures Flatten(Fragments(buf)) == buf
    ensures |Fragments(buf)| == (|buf| + DATA_LEN - 1) / DATA_LEN
    ensures forall i :: 0 <= i < |Fragments(buf)| ==> 0 < |Fragments(buf)[i]| <= DATA_LEN
    ensures forall i :: 0 <= i < |Fragments(buf)| - 1 ==> |Fragments(buf)[i]| == DATA_LEN
    decreases |buf|
  {
    if buf == [] {
    } else if |buf| < DATA_LEN {
      FlattenOne(buf);
    } else {
      var tail := buf[DATA_LEN..];
      FragmentsRoundTrip(tail);
      FlattenOne(buf[..DATA_LEN]);
      FlattenAppend([buf[..DATA_LEN]], Fragments(tail));
      assert buf == buf[..DATA_LEN] + tail;
      assert |tail| + DATA_LEN == |buf|;
    }
  }

  /** The i-th payload is the i-th window of the buffer. */
  lemma {:induction false} FragmentAt(buf: seq<byte>, i: nat)
    requires i < |Fragments(buf)|
    ensures i * DATA_LEN < |buf|
    ensures Fragments(buf)[i] ==
            if (i + 1) * DATA_LEN <= |buf| then buf[i * DATA_LEN..(i + 1) * DATA_LEN] else buf[i * DATA_LEN..]
    decreases |buf|
  {
    if |buf| >= DATA_LEN && i > 0 {
      var tail := buf[DATA_LEN..];
      assert Fragments(buf)[i] == Fragments(tail)[i - 1];
      FragmentAt(tail, i - 1);
    }
  }

  /** The nodes queued for payloads `frags` to `to`, numbered from `first`. */
  function Nodes(to: Addr, first: int, frags: seq<seq<byte>>): (r: seq<Node>)
  {
    seq(|frags|, i requires 0 <= i < |frags| => Node(to, Data(Segment(first + i, frags[i]))))
  }
}
