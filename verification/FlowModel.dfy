/** A bidirectional flow: the running record the sensor updates per packet, and
    the history of packets that record stands for. */
module FlowModel {
  import opened Common
  import opened Statistics

  datatype Direction = Inbound | Outbound | UnknownDirection

  datatype Origin = RemoteInitiated | LocalInitiated

  datatype EndReason = TcpFin | TcpReset | Timeout

  datatype DirectionStats = DirectionStats(
    packetLen: RunningStats, payloadLen: RunningStats, iatUs: RunningStats, lastSeen: Time,
    syn: nat, ack: nat, fin: nat, rst: nat, psh: nat, urg: nat)

  const NO_PACKETS := DirectionStats(EMPTY, EMPTY, EMPTY, 0, 0, 0, 0, 0, 0, 0)

  datatype Flow = Flow(
    key: FiveTuple, firstSeen: Time, lastSeen: Time, forward: DirectionStats, backward: DirectionStats,
    origin: Origin, finHandshakeComplete: bool)

  datatype EndedFlow = EndedFlow(flow: Flow, reason: EndReason)

  // duration_cast to microseconds truncates towards zero.
  function Micros(ns: int): (r: int) {
    if ns >= 0 then ns / NS_PER_MICROSECOND else -((-ns) / NS_PER_MICROSECOND)
  }

  // The inter-arrival time between two instants, in whole microseconds.
  function Gap(before: Time, now: Time): (r: real) {
    Micros(now - before) as real
  }

  function Absorb(d: DirectionStats, p: Packet, now: Time): (r: DirectionStats) {
    var f := p.tcpFlags;
    DirectionStats(
      d.packetLen.Add(p.totalLen as real),
      d.payloadLen.Add(p.payloadLen as real),
      if d.packetLen.count > 0 then d.iatUs.Add(Gap(d.lastSeen, now)) else d.iatUs,
      now,
      if Syn(f) then d.syn + 1 else d.syn,
      if Ack(f) then d.ack + 1 else d.ack,
      if Fin(f) then d.fin + 1 else d.fin,
      if Rst(f) then d.rst + 1 else d.rst,
      if Psh(f) then d.psh + 1 else d.psh,
      if Urg(f) then d.urg + 1 else d.urg)
  }

  function NewFlow(key: FiveTuple, origin: Origin, now: Time): (r: Flow) {
    Flow(key, now, now, NO_PACKETS, NO_PACKETS, origin, false)
  }

  // The per-packet update of a live flow.
  function Advance(flow: Flow, p: Packet, isForward: bool, now: Time): (r: Flow) {
    var bothFinSeen := flow.forward.fin > 0 && flow.backward.fin > 0;
    flow.(forward := if isForward then Absorb(flow.forward, p, now) else flow.forward,
          backward := if isForward then flow.backward else Absorb(flow.backward, p, now),
          finHandshakeComplete := flow.finHandshakeComplete || (bothFinSeen && Ack(p.tcpFlags) && !Fin(p.tcpFlags)),
          lastSeen := now)
  }

  // One packet of a conversation, as it was observed.
  datatype Seen = Seen(packet: Packet, isForward: bool, at: Time)

  // Everything observed of a live conversation since its flow was created.
  datatype Track = Track(origin: Origin, seen: seq<Seen>)

  // The part of a history that travelled one way.
  function OneWay(seen: seq<Seen>, isForward: bool): (r: seq<Seen>) {
    if seen == [] then []
    else
      var front := OneWay(seen[..|seen| - 1], isForward);
      var last := seen[|seen| - 1];
      if last.isForward == isForward then front + [last] else front
  }

  function TotalLengths(seen: seq<Seen>): (r: seq<real>) {
    seq(|seen|, i requires 0 <= i < |seen| => seen[i].packet.totalLen as real)
  }

  function PayloadLengths(seen: seq<Seen>): (r: seq<real>) {
    seq(|seen|, i requires 0 <= i < |seen| => seen[i].packet.payloadLen as real)
  }

  function Gaps(seen: seq<Seen>): (r: seq<real>) {
    if |seen| < 2 then []
    else seq(|seen| - 1, i requires 0 <= i < |seen| - 1 => Gap(seen[i].at, seen[i + 1].at))
  }

  function Flagged(seen: seq<Seen>, flag: Byte -> bool): (r: nat) {
    if seen == [] then 0
    else Flagged(seen[..|seen| - 1], flag) + (if flag(seen[|seen| - 1].packet.tcpFlags) then 1 else 0)
  }

  // What one direction's statistics mean.
  function Summary(seen: seq<Seen>): (r: DirectionStats) {
    DirectionStats(
      Fold(TotalLengths(seen)), Fold(PayloadLengths(seen)), Fold(Gaps(seen)),
      if seen == [] then 0 else seen[|seen| - 1].at,
      Flagged(seen, Syn), Flagged(seen, Ack), Flagged(seen, Fin), Flagged(seen, Rst), Flagged(seen, Psh),
      Flagged(seen, Urg))
  }

  predicate SawFin(seen: seq<Seen>, isForward: bool) {
    exists i | 0 <= i < |seen| :: seen[i].isForward == isForward && Fin(seen[i].packet.tcpFlags)
  }

  predicate LastAckAt(seen: seq<Seen>, k: nat)
    requires k < |seen|
  {
    && Ack(seen[k].packet.tcpFlags) && !Fin(seen[k].packet.tcpFlags)
    && SawFin(seen[..k], true) && SawFin(seen[..k], false)
  }

  // A non-FIN ACK arrived strictly after a FIN from each side.
  predicate HandshakeComplete(seen: seq<Seen>) {
    exists k | 0 <= k < |seen| :: LastAckAt(seen, k)
  }

  predicate SawReset(seen: seq<Seen>) {
    exists i | 0 <= i < |seen| :: Rst(seen[i].packet.tcpFlags)
  }

  // The flow record a history stands for.
  function Record(key: FiveTuple, track: Track): (r: Flow)
    requires track.seen != []
  {
    var seen := track.seen;
    Flow(key, seen[0].at, seen[|seen| - 1].at, Summary(OneWay(seen, true)), Summary(OneWay(seen, false)),
         track.origin, HandshakeComplete(seen))
  }

  // A live flow ends with the first reset or the last ACK of a FIN handshake.
  predicate Terminal(seen: seq<Seen>) {
    SawReset(seen) || HandshakeComplete(seen)
  }

  lemma LengthsAppend(seen: seq<Seen>, s: Seen)
    ensures Fold(TotalLengths(seen + [s])) == Fold(TotalLengths(seen)).Add(s.packet.totalLen as real)
    ensures Fold(PayloadLengths(seen + [s])) == Fold(PayloadLengths(seen)).Add(s.packet.payloadLen as real)
  {
    assert TotalLengths(seen + [s]) == TotalLengths(seen) + [s.packet.totalLen as real];
    FoldAppend(TotalLengths(seen), s.packet.totalLen as real);
    assert PayloadLengths(seen + [s]) == PayloadLengths(seen) + [s.packet.payloadLen as real];
    FoldAppend(PayloadLengths(seen), s.packet.payloadLen as real);
  }

  lemma GapsAppend(seen: seq<Seen>, s: Seen)
    ensures Fold(Gaps(seen + [s])) ==
            if seen == [] then Fold(Gaps(seen)) else Fold(Gaps(seen)).Add(Gap(seen[|seen| - 1].at, s.at))
  {
    if seen == [] {
      assert Gaps(seen + [s]) == Gaps(seen);
    } else {
      var gap := Gap(seen[|seen| - 1].at, s.at);
      assert Gaps(seen + [s]) == Gaps(seen) + [gap];
      FoldAppend(Gaps(seen), gap);
    }
  }

  lemma SummaryAppend(seen: seq<Seen>, s: Seen)
    ensures Summary(seen + [s]) == Absorb(Summary(seen), s.packet, s.at)
  {
    assert (seen + [s])[..|seen|] == seen;
    LengthsAppend(seen, s);
    GapsAppend(seen, s);
    FoldMeaning(TotalLengths(seen));
  }

  lemma {:induction false} FlaggedOneWay(seen: seq<Seen>, isForward: bool)
    ensures Flagged(OneWay(seen, isForward), Fin) > 0 <==> SawFin(seen, isForward)
  {
    if seen != [] {
      var front, last := seen[..|seen| - 1], seen[|seen| - 1];
      FlaggedOneWay(front, isForward);
      var way := OneWay(front, isForward);
      assert (way + [last])[..|way|] == way;
      assert seen == front + [last];
      if SawFin(front, isForward) {
        var i :| 0 <= i < |front| && front[i].isForward == isForward && Fin(front[i].packet.tcpFlags);
        assert seen[i] == front[i];
      }
    }
  }

  lemma {:induction false} ResetCounted(seen: seq<Seen>)
    ensures Flagged(OneWay(seen, true), Rst) > 0 || Flagged(OneWay(seen, false), Rst) > 0 <==> SawReset(seen)
  {
    if seen != [] {
      var front, last := seen[..|seen| - 1], seen[|seen| - 1];
      ResetCounted(front);
      var way := OneWay(front, last.isForward);
      assert (way + [last])[..|way|] == way;
      if SawReset(front) {
        var i :| 0 <= i < |front| && Rst(front[i].packet.tcpFlags);
        assert seen[i] == front[i];
      }
    }
  }

  lemma HandshakeAppend(seen: seq<Seen>, s: Seen)
    ensures HandshakeComplete(seen + [s]) <==>
            || HandshakeComplete(seen)
            || (SawFin(seen, true) && SawFin(seen, false) && Ack(s.packet.tcpFlags) && !Fin(s.packet.tcpFlags))
  {
    var all := seen + [s];
    assert all[..|seen|] == seen;
    forall k | 0 <= k < |seen| ensures LastAckAt(all, k) <==> LastAckAt(seen, k) {
      assert all[..k] == seen[..k];
    }
    if HandshakeComplete(seen) {
      var k :| 0 <= k < |seen| && LastAckAt(seen, k);
      assert LastAckAt(all, k);
    }
    assert LastAckAt(all, |seen|) <==>
           (SawFin(seen, true) && SawFin(seen, false) && Ack(s.packet.tcpFlags) && !Fin(s.packet.tcpFlags));
  }

  /** The per-packet update computes exactly the summary of the longer history:
      both directions' statistics, the times and the FIN handshake. */
  lemma RecordAppend(key: FiveTuple, track: Track, s: Seen)
    requires track.seen != []
    ensures Record(key, track.(seen := track.seen + [s])) == Advance(Record(key, track), s.packet, s.isForward, s.at)
  {
    var seen := track.seen;
    assert (seen + [s])[..|seen|] == seen;
    SummaryAppend(OneWay(seen, s.isForward), s);
    FlaggedOneWay(seen, true);
    FlaggedOneWay(seen, false);
    HandshakeAppend(seen, s);
  }

  lemma SummaryEmpty()
    ensures Summary([]) == NO_PACKETS
  {
    assert TotalLengths([]) == PayloadLengths([]) == Gaps([]) == [];
  }

  /** The same for the packet that creates the flow. */
  lemma RecordCreate(key: FiveTuple, origin: Origin, s: Seen)
    requires s.isForward
    ensures Record(key, Track(origin, [s])) == Advance(NewFlow(key, origin, s.at), s.packet, true, s.at)
  {
    assert [s][..0] == [] && [] + [s] == [s];
    assert OneWay([s], true) == [s] && OneWay([s], false) == [];
    SummaryAppend([], s);
    SummaryEmpty();
    HandshakeAppend([], s);
  }

  /** The end-of-flow tests of the code read the history correctly. */
  lemma TerminalTests(key: FiveTuple, track: Track)
    requires track.seen != []
    ensures var f := Record(key, track);
            && (f.forward.rst > 0 || f.backward.rst > 0 <==> SawReset(track.seen))
            && (f.finHandshakeComplete <==> HandshakeComplete(track.seen))
  {
    ResetCounted(track.seen);
  }
}
