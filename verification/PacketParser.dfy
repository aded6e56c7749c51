/** IPv4, TCP and UDP header decoding over an untrusted buffer (section 3.1 of
    RFC 791, section 3.1 of RFC 9293, the Format section of RFC 768). */
module PacketParser {
  import opened Common

  const IP_HEADER := 20
  const TCP_HEADER := 20
  const UDP_HEADER := 8
  const TCP: Byte := 6
  const UDP: Byte := 17

  // Bytes the kernel copies per packet.
  const MAX_COPY_BYTES := 128

  // Longest possible headers: 15 words of IP and 15 words of TCP.
  const MAX_HEADERS := 120

  function Be16(data: seq<Byte>, i: nat): (v: U16)
    requires i + 2 <= |data|
  {
    var hi: int, lo: int := data[i], data[i + 1];
    256 * hi + lo
  }

  // An address keeps the memory order of the header (little-endian host).
  function Address(data: seq<Byte>, i: nat): (v: Ip)
    requires i + 4 <= |data|
  {
    var b0: int, b1: int, b2: int, b3: int := data[i], data[i + 1], data[i + 2], data[i + 3];
    b0 + 0x100 * b1 + 0x1_0000 * b2 + 0x100_0000 * b3
  }

  function ParseTcp(data: seq<Byte>, bare: Packet, ipLen: nat): (r: Packet)
    requires ipLen <= |data| && ipLen <= bare.totalLen
  {
    if |data| - ipLen < TCP_HEADER then
      bare
    else
      var tcpLen := data[ipLen + 12] / 16 * 4;
      if tcpLen < TCP_HEADER || tcpLen > |data| - ipLen || ipLen + tcpLen > bare.totalLen then
        bare
      else
        bare.(tuple := bare.tuple.(srcPort := Be16(data, ipLen), dstPort := Be16(data, ipLen + 2)),
              tcpFlags := data[ipLen + 13],
              payloadLen := bare.totalLen - ipLen - tcpLen,
              hasPorts := true)
  }

  function ParseUdp(data: seq<Byte>, bare: Packet, ipLen: nat): (r: Packet)
    requires ipLen <= |data| && ipLen <= bare.totalLen
  {
    if |data| - ipLen < UDP_HEADER then
      bare
    else
      var udpLen := Be16(data, ipLen + 4);
      if udpLen < UDP_HEADER || ipLen + udpLen > bare.totalLen then
        bare
      else
        bare.(tuple := bare.tuple.(srcPort := Be16(data, ipLen), dstPort := Be16(data, ipLen + 2)),
              payloadLen := udpLen - UDP_HEADER,
              hasPorts := true)
  }

  // None only when the 20 fixed bytes are missing or not IPv4; an unreadable
  // transport header still yields the addresses, with hasPorts false.
  function Parse(data: seq<Byte>): (r: Option<Packet>) {
    if |data| < IP_HEADER || data[0] / 16 != 4 || data[0] % 16 * 4 < IP_HEADER then
      None
    else
      var ipLen := data[0] % 16 * 4;
      var totalLen := Be16(data, 2);
      var bare := Packet(FiveTuple(Address(data, 12), Address(data, 16), 0, 0, data[9]), totalLen, 0, false, 0);
      if totalLen < ipLen || Be16(data, 6) % 0x2000 != 0 || |data| < ipLen then
        Some(bare)
      else if data[9] == TCP then
        Some(ParseTcp(data, bare, ipLen))
      else if data[9] == UDP then
        Some(ParseUdp(data, bare, ipLen))
      else
        Some(bare)
  }

  /** Any copy that keeps the first 120 bytes parses like the whole packet. */
  lemma TruncationInvariance(data: seq<Byte>, n: nat)
    requires MAX_HEADERS <= n <= |data|
    ensures Parse(data[..n]) == Parse(data)
  {
    var cut := data[..n];
    assert cut[0] == data[0] && cut[9] == data[9];
    assert Be16(cut, 2) == Be16(data, 2) && Be16(cut, 6) == Be16(data, 6);
    assert Address(cut, 12) == Address(data, 12) && Address(cut, 16) == Address(data, 16);
    var ipLen := data[0] % 16 * 4;
    assert ipLen <= 60;
    assert cut[ipLen + 12] == data[ipLen + 12] && cut[ipLen + 13] == data[ipLen + 13];
    assert Be16(cut, ipLen) == Be16(data, ipLen) && Be16(cut, ipLen + 2) == Be16(data, ipLen + 2);
    assert Be16(cut, ipLen + 4) == Be16(data, ipLen + 4);
  }

  /** The kernel's 128-byte copy loses nothing the parser looks at. */
  lemma CapturedCopyParsesAlike(data: seq<Byte>)
    ensures Parse(if |data| > MAX_COPY_BYTES then data[..MAX_COPY_BYTES] else data) == Parse(data)
  {
    if |data| > MAX_COPY_BYTES {
      TruncationInvariance(data, MAX_COPY_BYTES);
    }
  }

  // Header fields of a well-formed TCP or UDP datagram; the option lengths are
  // counted in 32-bit words.
  datatype Header =
    | TcpHeader(tuple: FiveTuple, ipWords: nat, tcpWords: nat, flags: Byte, payload: nat)
    | UdpHeader(tuple: FiveTuple, ipWords: nat, payload: nat)
  {
    function TransportLen(): (r: nat) {
      if TcpHeader? then 4 * tcpWords else UDP_HEADER
    }

    function TotalLen(): (r: nat) {
      4 * ipWords + TransportLen() + payload
    }

    predicate WellFormed() {
      && 5 <= ipWords <= 15
      && TotalLen() < 0x1_0000
      && (TcpHeader? ==> 5 <= tcpWords <= 15 && tuple.protocol == TCP)
      && (UdpHeader? ==> tuple.protocol == UDP)
    }

    function ToPacket(): (r: Packet)
      requires WellFormed()
    {
      Packet(tuple, TotalLen(), payload, true, if TcpHeader? then flags else 0)
    }
  }

  function Split16(v: U16): (r: seq<Byte>) {
    [v / 256, v % 256]
  }

  function SplitAddress(v: Ip): (r: seq<Byte>) {
    [v % 0x100, v / 0x100 % 0x100, v / 0x1_0000 % 0x100, v / 0x100_0000]
  }

  function Zeros(n: nat): (r: seq<Byte>) {
    seq(n, _ => 0)
  }

  function EncodeTransport(h: Header): (r: seq<Byte>)
    requires h.WellFormed()
    ensures |r| == h.TransportLen()
  {
    match h
    case TcpHeader(t, _, words, flags, _) =>
      Split16(t.srcPort) + Split16(t.dstPort) + Zeros(8) + [16 * words, flags] + Zeros(4 * words - 14)
    case UdpHeader(t, _, payload) =>
      Split16(t.srcPort) + Split16(t.dstPort) + Split16(UDP_HEADER + payload) + Zeros(2)
  }

  // The wire image of h: headers with zeroed checksums and options, then the body.
  function Encode(h: Header, body: seq<Byte>): (r: seq<Byte>)
    requires h.WellFormed()
  {
    [0x40 + h.ipWords, 0] + Split16(h.TotalLen()) + [0, 0, 0, 0, 64, h.tuple.protocol, 0, 0]
    + SplitAddress(h.tuple.srcIp) + SplitAddress(h.tuple.dstIp) + Zeros(4 * h.ipWords - IP_HEADER)
    + EncodeTransport(h) + body
  }

  lemma JoinAddress(v: Ip)
    ensures v == v % 0x100 + 0x100 * (v / 0x100 % 0x100) + 0x1_0000 * (v / 0x1_0000 % 0x100) + 0x100_0000 * (v / 0x100_0000)
  {
  }

  // The values the parser reads, for a transport header t of h.
  ghost predicate Carries(h: Header, t: seq<Byte>)
    requires h.WellFormed()
  {
    && |t| == h.TransportLen()
    && Be16(t, 0) == h.tuple.srcPort && Be16(t, 2) == h.tuple.dstPort
    && (h.TcpHeader? ==> t[12] == 16 * h.tcpWords && t[13] == h.flags)
    && (h.UdpHeader? ==> Be16(t, 4) == UDP_HEADER + h.payload)
  }

  lemma TransportFields(h: Header)
    requires h.WellFormed()
    ensures Carries(h, EncodeTransport(h))
  {
  }

  lemma ParseFields(data: seq<Byte>, h: Header, t: seq<Byte>)
    requires h.WellFormed() && Carries(h, t)
    requires |data| >= 4 * h.ipWords + |t|
    requires data[0] == 0x40 + h.ipWords && data[9] == h.tuple.protocol
    requires Be16(data, 2) == h.TotalLen() && Be16(data, 6) == 0
    requires Address(data, 12) == h.tuple.srcIp && Address(data, 16) == h.tuple.dstIp
    requires forall i | 0 <= i < |t| :: data[4 * h.ipWords + i] == t[i]
    ensures Parse(data) == Some(h.ToPacket())
  {
    var ipLen := 4 * h.ipWords;
    assert Be16(data, ipLen) == Be16(t, 0);
    assert Be16(data, ipLen + 2) == Be16(t, 2);
    if h.TcpHeader? {
      assert data[ipLen + 12] == t[12] && data[ipLen + 13] == t[13];
    } else {
      assert Be16(data, ipLen + 4) == Be16(t, 4);
    }
  }

  lemma TransportBytes(h: Header, body: seq<Byte>)
    requires h.WellFormed()
    ensures |Encode(h, body)| == 4 * h.ipWords + h.TransportLen() + |body|
    ensures forall i | 0 <= i < h.TransportLen() :: Encode(h, body)[4 * h.ipWords + i] == EncodeTransport(h)[i]
  {
    var data := Encode(h, body);
    var ipLen := 4 * h.ipWords;
    assert data[ipLen..ipLen + h.TransportLen()] == EncodeTransport(h);
    forall i | 0 <= i < h.TransportLen() ensures data[ipLen + i] == EncodeTransport(h)[i] {
      assert data[ipLen..ipLen + h.TransportLen()][i] == data[ipLen + i];
    }
  }

  lemma FixedFields(h: Header, body: seq<Byte>)
    requires h.WellFormed()
    ensures var data := Encode(h, body);
            && |data| == 4 * h.ipWords + h.TransportLen() + |body|
            && data[0] == 0x40 + h.ipWords && data[9] == h.tuple.protocol
            && Be16(data, 2) == h.TotalLen() && Be16(data, 6) == 0
            && Address(data, 12) == h.tuple.srcIp && Address(data, 16) == h.tuple.dstIp
  {
    var data := Encode(h, body);
    var fixed := [0x40 + h.ipWords, 0] + Split16(h.TotalLen()) + [0, 0, 0, 0, 64, h.tuple.protocol, 0, 0]
                 + SplitAddress(h.tuple.srcIp) + SplitAddress(h.tuple.dstIp);
    assert data[..20] == fixed;
    forall i | 0 <= i < 20 ensures data[i] == fixed[i] {
      assert data[..20][i] == data[i];
    }
    JoinAddress(h.tuple.srcIp);
    JoinAddress(h.tuple.dstIp);
  }

  /** Parsing undoes encoding, whatever part of the payload was captured. */
  lemma ParseEncode(h: Header, body: seq<Byte>)
    requires h.WellFormed()
    ensures Parse(Encode(h, body)) == Some(h.ToPacket())
  {
    FixedFields(h, body);
    TransportBytes(h, body);
    TransportFields(h);
    ParseFields(Encode(h, body), h, EncodeTransport(h));
  }

  /** Reported lengths add up without 16-bit wrap-around, and a packet without
      ports carries no transport field at all. */
  lemma LengthsAddUp(data: seq<Byte>)
    ensures var p := Parse(data);
            p.Some? && p.value.hasPorts ==>
            var ipLen := data[0] % 16 * 4;
            && (data[9] == TCP ==> ipLen + data[ipLen + 12] / 16 * 4 + p.value.payloadLen == p.value.totalLen)
            && (data[9] == UDP ==> ipLen + UDP_HEADER + p.value.payloadLen <= p.value.totalLen)
    ensures var p := Parse(data);
            p.Some? && !p.value.hasPorts ==>
            p.value.tuple.srcPort == p.value.tuple.dstPort == p.value.payloadLen == p.value.tcpFlags == 0
  {
  }

  /** 120 bytes are needed: the longest headers cut at 119 lose their ports. */
  lemma OneByteLessIsNotEnough(t: FiveTuple)
    requires t.protocol == TCP
    ensures var data := Encode(TcpHeader(t, 15, 15, 0, 0), []);
            && |data| == MAX_HEADERS
            && Parse(data).Some? && Parse(data).value.hasPorts
            && Parse(data[..MAX_HEADERS - 1]) == Some(Parse(data).value.(tuple := t.(srcPort := 0, dstPort := 0), hasPorts := false))
  {
    var h := TcpHeader(t, 15, 15, 0, 0);
    var data := Encode(h, []);
    ParseEncode(h, []);
    FixedFields(h, []);
    var cut := data[..MAX_HEADERS - 1];
    assert Be16(cut, 2) == Be16(data, 2) && Be16(cut, 6) == Be16(data, 6);
    assert Address(cut, 12) == Address(data, 12) && Address(cut, 16) == Address(data, 16);
    assert data[60..120] == EncodeTransport(h);
    assert data[72] == data[60..120][12] == 240;
  }

  // Copies cut below 120 bytes lose ports: the packet of the longest headers.
  lemma ShorterCopyLoses(n: nat)
    requires n < MAX_HEADERS
    ensures exists data: seq<Byte> :: |data| == MAX_HEADERS && Parse(data[..n]) != Parse(data)
  {
    var t := FiveTuple(0, 0, 1, 1, TCP);
    var h := TcpHeader(t, 15, 15, 0, 0);
    var data := Encode(h, []);
    ParseEncode(h, []);
    OneByteLessIsNotEnough(t);
    FixedFields(h, []);
    hide Encode;
    var cut := data[..n];
    assert cut[..n] == data[..n];
    if n >= IP_HEADER {
      assert cut[0] == data[0] && cut[9] == data[9] && Be16(cut, 2) == Be16(data, 2) && Be16(cut, 6) == Be16(data, 6);
      assert n < MAX_HEADERS - 1 ==> Parse(cut).Some? && !Parse(cut).value.hasPorts;
    }
  }

  /** A copy of n bytes parses like every packet it was cut from if and only if it
      keeps at least 120; in particular 80 are not enough. */
  lemma CopyLengthIff(n: nat)
    ensures (forall data: seq<Byte> | |data| >= n :: Parse(data[..n]) == Parse(data)) <==> n >= MAX_HEADERS
  {
    if n >= MAX_HEADERS {
      forall data: seq<Byte> | |data| >= n ensures Parse(data[..n]) == Parse(data) {
        TruncationInvariance(data, n);
      }
    } else {
      ShorterCopyLoses(n);
    }
  }
}
