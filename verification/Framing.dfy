/** WGQ1 frames: how one WireGuard datagram is cut into frames and how a frame is
    read back.  The header layout is fixed: magic, version, then the packet ID,
    the fragment index, the fragment count and the datagram size, big endian. */
module Framing {

  newtype byte = x: int | 0 <= x < 256

  datatype Result<+T> = Ok(value: T) | Err(error: FrameError)

  datatype FrameError =
    | InvalidDatagramSize
    | InvalidFragmentSize
    | TooManyFragments
    | FrameTooShort
    | InvalidMagic
    | InvalidIndexOrCount
    | InvalidTotal
    | PayloadTooLarge

  const FRAME_HEADER_SIZE: nat := 21
  const MAX_FRAGMENT_DATA: nat := 4075
  const MAX_FRAGMENTS: nat := 128
  const MAX_DATAGRAM_SIZE: nat := 65535
  const MAX_PACKET_ID: nat := 0x1_0000_0000_0000_0000

  const PREFIX: seq<byte> := [87, 71, 81, 49, 1]  // 'W' 'G' 'Q' '1', version 1

  datatype Fragment = Fragment(packetID: nat, index: nat, count: nat, total: nat, data: seq<byte>)

  /** What a parsed fragment satisfies. */
  predicate Legal(f: Fragment) {
    && f.packetID < MAX_PACKET_ID
    && 0 < f.count <= MAX_FRAGMENTS
    && f.index < f.count
    && 0 < f.total <= MAX_DATAGRAM_SIZE
    && 0 < |f.data| <= MAX_FRAGMENT_DATA
  }

  // ---------- big-endian integers ----------

  function Pow256(width: nat): nat {
    if width == 0 then 1 else 256 * Pow256(width - 1)
  }

  /** The `width` low-order bytes of n, most significant first. */
  function BigEndian(n: nat, width: nat): (s: seq<byte>)
    ensures |s| == width
  {
    if width == 0 then [] else BigEndian(n / 256, width - 1) + [(n % 256) as byte]
  }

  function FromBigEndian(s: seq<byte>): nat {
    if s == [] then 0 else 256 * FromBigEndian(s[..|s| - 1]) + s[|s| - 1] as nat
  }

  lemma {:induction false} BigEndianDecodes(n: nat, width: nat)
    requires n < Pow256(width)
    ensures FromBigEndian(BigEndian(n, width)) == n
  {
    if width > 0 {
      BigEndianDecodes(n / 256, width - 1);
      var s := BigEndian(n, width);
      assert s[..|s| - 1] == BigEndian(n / 256, width - 1);
    }
  }

  lemma {:induction false} BigEndianEncodes(s: seq<byte>)
    ensures FromBigEndian(s) < Pow256(|s|)
    ensures BigEndian(FromBigEndian(s), |s|) == s
  {
    if s != [] {
      var init := s[..|s| - 1];
      BigEndianEncodes(init);
      assert s == init + [s[|s| - 1]];
    }
  }

  lemma WidthLimits()
    ensures Pow256(2) == 0x1_0000
    ensures Pow256(4) == 0x1_0000_0000
    ensures Pow256(8) == MAX_PACKET_ID
  {
  }

  // ---------- header ----------

  function Header(packetID: nat, index: nat, count: nat, total: nat): (h: seq<byte>)
    ensures |h| == FRAME_HEADER_SIZE
  {
    PREFIX + BigEndian(packetID, 8) + BigEndian(index, 2) + BigEndian(count, 2) + BigEndian(total, 4)
  }

  function Encode(f: Fragment): seq<byte> {
    Header(f.packetID, f.index, f.count, f.total) + f.data
  }

  /** Where each header field sits inside a frame. */
  lemma HeaderFields(f: Fragment)
    ensures var frame := Encode(f);
            && frame[..5] == PREFIX
            && frame[5..13] == BigEndian(f.packetID, 8)
            && frame[13..15] == BigEndian(f.index, 2)
            && frame[15..17] == BigEndian(f.count, 2)
            && frame[17..21] == BigEndian(f.total, 4)
            && frame[21..] == f.data
  {
  }

  function ParseFragment(frame: seq<byte>): Result<Fragment> {
    if |frame| <= FRAME_HEADER_SIZE then
      Err(FrameTooShort)
    else if frame[..4] != PREFIX[..4] || frame[4] != 1 then
      Err(InvalidMagic)
    else
      var f := Fragment(
        FromBigEndian(frame[5..13]),
        FromBigEndian(frame[13..15]),
        FromBigEndian(frame[15..17]),
        FromBigEndian(frame[17..21]),
        frame[FRAME_HEADER_SIZE..]);
      if f.count == 0 || f.count > MAX_FRAGMENTS || f.index >= f.count then
        Err(InvalidIndexOrCount)
      else if f.total == 0 || f.total > MAX_DATAGRAM_SIZE then
        Err(InvalidTotal)
      else if |f.data| > MAX_FRAGMENT_DATA then
        Err(PayloadTooLarge)
      else
        Ok(f)
  }

  lemma ParseOfEncode(f: Fragment)
    requires Legal(f)
    ensures ParseFragment(Encode(f)) == Ok(f)
  {
    WidthLimits();
    HeaderFields(f);
    BigEndianDecodes(f.packetID, 8);
    BigEndianDecodes(f.index, 2);
    BigEndianDecodes(f.count, 2);
    BigEndianDecodes(f.total, 4);
    var frame := Encode(f);
    assert frame[..4] == frame[..5][..4];
    assert frame[4] == frame[..5][4];
  }

  lemma EncodeOfParse(frame: seq<byte>)
    requires ParseFragment(frame).Ok?
    ensures Legal(ParseFragment(frame).value)
    ensures Encode(ParseFragment(frame).value) == frame
  {
    var f := ParseFragment(frame).value;
    WidthLimits();
    BigEndianEncodes(frame[5..13]);
    BigEndianEncodes(frame[13..15]);
    BigEndianEncodes(frame[15..17]);
    BigEndianEncodes(frame[17..21]);
    assert frame[..5] == frame[..4] + [frame[4]] == PREFIX;
    assert frame == frame[..5] + frame[5..13] + frame[13..15] + frame[15..17] + frame[17..21] + frame[21..];
  }

  /** Parsing is exactly the inverse of framing: a frame is accepted if and only
      if it is the encoding of a legal fragment, and then yields that fragment. */
  lemma ParseExact(frame: seq<byte>, f: Fragment)
    ensures ParseFragment(frame) == Ok(f) <==> Legal(f) && frame == Encode(f)
  {
    if ParseFragment(frame) == Ok(f) {
      EncodeOfParse(frame);
    }
    if Legal(f) && frame == Encode(f) {
      ParseOfEncode(f);
    }
  }

  // ---------- writing frames ----------

  /** encoding/binary's big-endian Put, for any width. */
  method PutBigEndian(frame: array<byte>, off: nat, width: nat, value: nat)
    requires off + width <= frame.Length
    modifies frame
    ensures frame[..] == old(frame[..off]) + BigEndian(value, width) + old(frame[off + width..])
  {
    var rest, k := value, width;
    ghost var was := frame[..];
    while k > 0
      invariant 0 <= k <= width
      invariant frame[..off + k] == was[..off + k]
      invariant frame[off + width..] == was[off + width..]
      invariant BigEndian(value, width) == BigEndian(rest, k) + frame[off + k..off + width]
    {
      k := k - 1;
      ghost var tail := frame[off + k + 1..off + width];
      frame[off + k] := (rest % 256) as byte;
      assert frame[off + k + 1..off + width] == tail;
      assert frame[off + k..off + width] == [(rest % 256) as byte] + tail;
      rest := rest / 256;
    }
    assert frame[..] == frame[..off] + frame[off..off + width] + frame[off + width..];
  }

  method WriteFragmentHeader(frame: array<byte>, packetID: nat, index: nat, count: nat, total: nat)
    requires frame.Length >= FRAME_HEADER_SIZE
    modifies frame
    ensures frame[..] == Header(packetID, index, count, total) + old(frame[FRAME_HEADER_SIZE..])
  {
    ghost var body := frame[FRAME_HEADER_SIZE..];
    frame[0], frame[1], frame[2], frame[3] := PREFIX[0], PREFIX[1], PREFIX[2], PREFIX[3];
    frame[4] := 1;
    ghost var was := frame[..];
    assert was[..5] == PREFIX && was[21..] == body;
    PutBigEndian(frame, 5, 8, packetID);
    was := HeaderExtended(was, frame[..], PREFIX, BigEndian(packetID, 8));
    PutBigEndian(frame, 13, 2, index);
    was := HeaderExtended(was, frame[..], was[..13], BigEndian(index, 2));
    PutBigEndian(frame, 15, 2, count);
    was := HeaderExtended(was, frame[..], was[..15], BigEndian(count, 2));
    PutBigEndian(frame, 17, 4, total);
    was := HeaderExtended(was, frame[..], was[..17], BigEndian(total, 4));
    assert frame[..] == was[..21] + was[21..];
  }

  /** Writing the next field after `done` leaves `done` and the payload in place. */
  lemma HeaderExtended(was: seq<byte>, now: seq<byte>, done: seq<byte>, field: seq<byte>) returns (r: seq<byte>)
    requires |done| + |field| <= 21 <= |was| && was[..|done|] == done
    requires now == was[..|done|] + field + was[|done| + |field|..]
    ensures r == now && |r| == |was|
    ensures r[..|done| + |field|] == done + field && r[21..] == was[21..]
  {
    r := now;
  }

  /** Fills the reserved header of a buffer that already holds one datagram. */
  method FramePreparedPacket(frame: array<byte>, packetID: nat) returns (r: Result<seq<byte>>)
    modifies frame
    ensures r.Ok? <==> FRAME_HEADER_SIZE < frame.Length <= FRAME_HEADER_SIZE + MAX_DATAGRAM_SIZE
    ensures r.Ok? ==> frame[..] == r.value
    ensures r.Ok? ==>
              var payload := old(frame[FRAME_HEADER_SIZE..]);
              r.value == Encode(Fragment(packetID, 0, 1, |payload|, payload))
    ensures r.Err? ==> r.error == InvalidDatagramSize && frame[..] == old(frame[..])
  {
    var payloadLen := frame.Length - FRAME_HEADER_SIZE;
    if payloadLen <= 0 || payloadLen > MAX_DATAGRAM_SIZE {
      return Err(InvalidDatagramSize);
    }
    WriteFragmentHeader(frame, packetID, 0, 1, payloadLen);
    return Ok(frame[..]);
  }

  // ---------- cutting a datagram ----------

  function FragmentCount(length: nat, size: nat): nat
    requires size > 0
  {
    (length + size - 1) / size
  }

  /** Where chunk i of a datagram starts. */
  function Offset(size: nat, i: nat): nat {
    i * size
  }

  function ChunkEnd(length: nat, size: nat, i: nat): nat {
    if Offset(size, i + 1) < length then Offset(size, i + 1) else length
  }

  function Chunk(packet: seq<byte>, size: nat, i: nat): seq<byte>
    requires Offset(size, i) <= |packet|
  {
    NextOffset(size, i);
    packet[Offset(size, i)..ChunkEnd(|packet|, size, i)]
  }

  lemma ChunkSpan(packet: seq<byte>, size: nat, i: nat)
    requires Offset(size, i) <= |packet|
    ensures Offset(size, i) <= ChunkEnd(|packet|, size, i) <= |packet|
    ensures Chunk(packet, size, i) == packet[Offset(size, i)..ChunkEnd(|packet|, size, i)]
  {
  }

  lemma NextOffset(size: nat, i: nat)
    ensures Offset(size, 0) == 0
    ensures Offset(size, i + 1) == Offset(size, i) + size
  {
  }

  lemma OffsetMono(size: nat, a: nat, b: nat)
    requires a <= b
    ensures Offset(size, a) <= Offset(size, b)
  {
  }

  lemma CountBounds(length: nat, size: nat)
    requires size > 0 && length > 0
    ensures var count := FragmentCount(length, size);
            0 < count && Offset(size, count - 1) < length <= Offset(size, count)
  {
  }

  lemma ChunkBounds(length: nat, size: nat, i: nat)
    requires size > 0 && length > 0 && i < FragmentCount(length, size)
    ensures Offset(size, i) < length
    ensures 0 < ChunkEnd(length, size, i) - Offset(size, i) <= size
    ensures i + 1 == FragmentCount(length, size) ==> ChunkEnd(length, size, i) == length
    ensures i + 1 < FragmentCount(length, size) ==> ChunkEnd(length, size, i) == Offset(size, i + 1)
  {
    hide Offset, FragmentCount;
    var count := FragmentCount(length, size);
    CountBounds(length, size);
    OffsetMono(size, i, count - 1);
    NextOffset(size, i);
    if i + 1 < count {
      OffsetMono(size, i + 1, count - 1);
    } else {
      assert i + 1 == count;
    }
  }

  function FragmentOf(packet: seq<byte>, packetID: nat, size: nat, i: nat): Fragment
    requires size > 0 && i < FragmentCount(|packet|, size) && |packet| > 0
  {
    ChunkBounds(|packet|, size, i);
    Fragment(packetID, i, FragmentCount(|packet|, size), |packet|, Chunk(packet, size, i))
  }

  /** The datagrams and sizes the framer accepts. */
  predicate Framable(packet: seq<byte>, size: int) {
    && 0 < |packet| <= MAX_DATAGRAM_SIZE
    && 0 < size <= MAX_FRAGMENT_DATA
    && FragmentCount(|packet|, size) <= MAX_FRAGMENTS
  }

  lemma FragmentOfLegal(packet: seq<byte>, packetID: nat, size: nat, i: nat)
    requires Framable(packet, size) && packetID < MAX_PACKET_ID
    requires i < FragmentCount(|packet|, size)
    ensures Legal(FragmentOf(packet, packetID, size, i))
  {
    hide FragmentCount;
    ChunkSize(packet, size, i);
  }

  lemma ChunkSize(packet: seq<byte>, size: nat, i: nat)
    requires size > 0 && |packet| > 0 && i < FragmentCount(|packet|, size)
    ensures Offset(size, i) <= |packet| && 0 < |Chunk(packet, size, i)| <= size
  {
    hide FragmentCount, Offset;
    ChunkBounds(|packet|, size, i);
  }

  method FragmentPacketSized(packet: seq<byte>, packetID: nat, fragmentData: int)
    returns (r: Result<seq<seq<byte>>>)
    ensures r.Ok? <==> Framable(packet, fragmentData)
    ensures r.Err? ==> r.error == (
                         if |packet| == 0 || |packet| > MAX_DATAGRAM_SIZE then InvalidDatagramSize
                         else if fragmentData <= 0 || fragmentData > MAX_FRAGMENT_DATA then InvalidFragmentSize
                         else TooManyFragments)
    ensures r.Ok? ==> |r.value| == FragmentCount(|packet|, fragmentData)
    ensures r.Ok? ==> forall i :: 0 <= i < |r.value| ==>
                                    r.value[i] == Encode(FragmentOf(packet, packetID, fragmentData, i))
  {
    if |packet| == 0 || |packet| > MAX_DATAGRAM_SIZE {
      return Err(InvalidDatagramSize);
    }
    if fragmentData <= 0 || fragmentData > MAX_FRAGMENT_DATA {
      return Err(InvalidFragmentSize);
    }
    var count := (|packet| + fragmentData - 1) / fragmentData;
    if count > MAX_FRAGMENTS {
      return Err(TooManyFragments);
    }
    hide Offset, FragmentCount;
    CountBounds(|packet|, fragmentData);
    NextOffset(fragmentData, 0);
    var frames: seq<seq<byte>> := [];
    var i: nat, off: nat := 0, 0;
    while off < |packet|
      invariant 0 <= i == |frames| <= count
      invariant off == Offset(fragmentData, i)
      invariant i < count <==> off < |packet|
      invariant forall j :: 0 <= j < i ==>
                              frames[j] == Encode(FragmentOf(packet, packetID, fragmentData, j))
      decreases count - i
    {
      ChunkBounds(|packet|, fragmentData, i);
      NextOffset(fragmentData, i);
      var end := if off + fragmentData < |packet| then off + fragmentData else |packet|;
      var frame := new byte[FRAME_HEADER_SIZE + end - off];
      forall k | 0 <= k < end - off {
        frame[FRAME_HEADER_SIZE + k] := packet[off + k];
      }
      assert frame[FRAME_HEADER_SIZE..] == packet[off..end];
      WriteFragmentHeader(frame, packetID, i, count, |packet|);
      frames := frames + [frame[..]];
      i, off := i + 1, off + fragmentData;
      if i < count {
        ChunkBounds(|packet|, fragmentData, i);
      }
    }
    return Ok(frames);
  }

  // ---------- joining the chunks ----------

  function Concat(parts: seq<seq<byte>>): seq<byte> {
    if parts == [] then [] else Concat(parts[..|parts| - 1]) + parts[|parts| - 1]
  }

  function JoinedLength(length: nat, size: nat, parts: nat): nat
    requires size > 0
  {
    if parts == FragmentCount(length, size) then length else Offset(size, parts)
  }

  /** The chunks of a datagram, joined in index order, are the datagram. */
  lemma {:induction false} ChunksJoin(packet: seq<byte>, size: nat, parts: seq<seq<byte>>)
    requires size > 0 && |packet| > 0
    requires |parts| <= FragmentCount(|packet|, size)
    requires forall i :: 0 <= i < |parts| ==> Offset(size, i) <= |packet| && parts[i] == Chunk(packet, size, i)
    ensures JoinedLength(|packet|, size, |parts|) <= |packet|
    ensures Concat(parts) == packet[..JoinedLength(|packet|, size, |parts|)]
  {
    hide Offset, FragmentCount;
    CountBounds(|packet|, size);
    NextOffset(size, 0);
    hide Chunk;
    if parts != [] {
      var last := |parts| - 1;
      ChunkBounds(|packet|, size, last);
      ChunksJoin(packet, size, parts[..last]);
      assert Concat(parts[..last]) == packet[..Offset(size, last)];
      var end := ChunkEnd(|packet|, size, last);
      assert end == JoinedLength(|packet|, size, |parts|);
      assert parts[last] == packet[Offset(size, last)..end] by {
        ChunkSpan(packet, size, last);
      }
      assert packet[..Offset(size, last)] + packet[Offset(size, last)..end] == packet[..end];
    }
  }
}
