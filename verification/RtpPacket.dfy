/** RTP framing: the packet the fork writes and a reader of section 5.1 of RFC 3550. */
module RtpPacket {
  import opened Common

  const HEADER_LEN := 12
  const MAX_PAYLOAD := 1500

  datatype Packet = Packet(marker: bool, pt: Byte, sequence: Word16, timestamp: Word32, ssrc: Word32, payload: seq<Byte>)

  /** A number in network byte order. */
  function BigEndian(bytes: seq<Byte>): (n: nat)
    requires |bytes| == 2 || |bytes| == 4
    ensures |bytes| == 2 ==> n < 0x1_0000
    ensures |bytes| == 4 ==> n < 0x1_0000_0000
  {
    if |bytes| == 2 then 0x100 * bytes[0] as nat + bytes[1]
    else 0x100_0000 * bytes[0] as nat + 0x1_0000 * bytes[1] as nat + 0x100 * bytes[2] as nat + bytes[3]
  }

  /** Version 2, no padding, no extension, no contributing sources; then marker, payload type, sequence,
    * timestamp and SSRC in network byte order; the rest is payload. */
  function Parse(pkt: seq<Byte>): Option<Packet> {
    if |pkt| < HEADER_LEN || pkt[0] / 64 != 2 || pkt[0] % 64 != 0 then None
    else Some(Packet(pkt[1] / 128 == 1, pkt[1] % 128, BigEndian(pkt[2..4]), BigEndian(pkt[4..8]),
                     BigEndian(pkt[8..12]), pkt[12..]))
  }

  function Word32Bytes(w: Word32): seq<Byte> {
    [w / 0x100_0000 % 0x100, w / 0x1_0000 % 0x100, w / 0x100 % 0x100, w % 0x100]
  }

  function Header(marker: bool, pt: Byte, sequence: Word16, timestamp: Word32, ssrc: Word32): (h: seq<Byte>)
    ensures |h| == HEADER_LEN
  {
    [128, (if marker then 0x80 else 0) + pt % 0x80, sequence / 0x100 % 0x100, sequence % 0x100]
    + Word32Bytes(timestamp) + Word32Bytes(ssrc)
  }

  lemma HeaderParses(marker: bool, pt: Byte, sequence: Word16, timestamp: Word32, ssrc: Word32, payload: seq<Byte>)
    ensures Parse(Header(marker, pt, sequence, timestamp, ssrc) + payload)
         == Some(Packet(marker, pt % 128, sequence, timestamp, ssrc, payload))
  {
    var pkt := Header(marker, pt, sequence, timestamp, ssrc) + payload;
    SplitWord(sequence);
    SplitWord32(timestamp);
    SplitWord32(ssrc);
    assert pkt[2..4] == [sequence / 0x100 % 0x100, sequence % 0x100];
    assert pkt[4..8] == Word32Bytes(timestamp);
    assert pkt[8..12] == Word32Bytes(ssrc);
  }

  /** The twelve header bytes, written in place. */
  method WriteHeader(buf: array<Byte>, marker: bool, pt: Byte, sequence: Word16, timestamp: Word32, ssrc: Word32)
    requires buf.Length >= HEADER_LEN
    modifies buf
    ensures buf[..HEADER_LEN] == Header(marker, pt, sequence, timestamp, ssrc)
  {
    buf[0] := 2 * 64;
    buf[1] := (if marker then 0x80 else 0) + pt % 0x80;
    buf[2], buf[3] := sequence / 0x100 % 0x100, sequence % 0x100;
    buf[4], buf[5] := timestamp / 0x100_0000 % 0x100, timestamp / 0x1_0000 % 0x100;
    buf[6], buf[7] := timestamp / 0x100 % 0x100, timestamp % 0x100;
    buf[8], buf[9] := ssrc / 0x100_0000 % 0x100, ssrc / 0x1_0000 % 0x100;
    buf[10], buf[11] := ssrc / 0x100 % 0x100, ssrc % 0x100;
  }

  /** rtp_pack_and_send up to sendto: a payload that fits is framed so that any reader gets back exactly what was
    * meant, with the payload type cut to 7 bits; a longer one is refused. */
  method Pack(pt: Byte, marker: bool, ssrc: Word32, sequence: Word16, timestamp: Word32, payload: seq<Byte>)
    returns (pkt: Option<seq<Byte>>)
    ensures pkt.None? <==> |payload| > MAX_PAYLOAD
    ensures pkt.Some? ==> Parse(pkt.value) == Some(Packet(marker, pt % 128, sequence, timestamp, ssrc, payload))
  {
    if |payload| > MAX_PAYLOAD { return None; }
    var buf := new Byte[HEADER_LEN + MAX_PAYLOAD];
    WriteHeader(buf, marker, pt, sequence, timestamp, ssrc);
    ghost var header := buf[..HEADER_LEN];
    var i := 0;
    while i < |payload|
      invariant 0 <= i <= |payload|
      invariant buf[..HEADER_LEN + i] == header + payload[..i]
    {
      buf[HEADER_LEN + i] := payload[i];
      i := i + 1;
    }
    pkt := Some(buf[..HEADER_LEN + |payload|]);
    HeaderParses(marker, pt, sequence, timestamp, ssrc, payload);
    assert pkt.value == header + payload;
  }

  lemma SplitWord(w: Word16)
    ensures BigEndian([w / 0x100 % 0x100, w % 0x100]) == w
  {
  }

  lemma SplitWord32(w: Word32)
    ensures BigEndian(Word32Bytes(w)) == w
  {
    assert w / 0x100 / 0x100 == w / 0x1_0000 && w / 0x1_0000 / 0x100 == w / 0x100_0000;
  }
}
