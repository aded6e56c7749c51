/** Types shared by every part of the sensor model: machine-sized integers as
    subset types, the five-tuple that names a flow, and a parsed packet. */
module Common {

  datatype Option<+T> = None | Some(value: T)

  type Byte = n: nat | n < 0x100
  type U16 = n: nat | n < 0x1_0000
  type Ip = n: nat | n < 0x1_0000_0000

  // A steady_clock reading, in nanoseconds.
  type Time = int

  const NS_PER_SECOND := 1_000_000_000
  const NS_PER_MICROSECOND := 1000

  datatype FiveTuple = FiveTuple(srcIp: Ip, dstIp: Ip, srcPort: U16, dstPort: U16, protocol: Byte) {
    // The key under which the answers to this packet travel.
    function Reversed(): (r: FiveTuple) {
      FiveTuple(dstIp, srcIp, dstPort, srcPort, protocol)
    }
  }

  // What the parser extracts; the ports, flags and payload length are 0 when
  // hasPorts is false.
  datatype Packet = Packet(tuple: FiveTuple, totalLen: U16, payloadLen: U16, hasPorts: bool, tcpFlags: Byte)

  // The bits of the TCP flag octet.
  predicate Fin(f: Byte) { f % 2 == 1 }
  predicate Syn(f: Byte) { f / 2 % 2 == 1 }
  predicate Rst(f: Byte) { f / 4 % 2 == 1 }
  predicate Psh(f: Byte) { f / 8 % 2 == 1 }
  predicate Ack(f: Byte) { f / 16 % 2 == 1 }
  predicate Urg(f: Byte) { f / 32 % 2 == 1 }

  lemma Regroup<T>(x: seq<T>, y: seq<T>, z: seq<T>)
    ensures x + (y + z) == x + y + z
  {
  }
}
