/** The flow table and the per-source windows as values: what each operation of
    the flow manager does to the recorded histories. */
module FlowTable {
  import opened Common
  import opened FlowModel
  import Sweep

  const FLOW_TIMEOUT_SEC := 60

  // One source's tumbling window.
  datatype SourceStats = SourceStats(ports: set<U16>, synCount: nat, windowStart: Time)

  datatype Limits = Limits(windowSeconds: int, maxFlows: nat, maxSources: nat, flowBuckets: nat, sourceBuckets: nat) {
    predicate Ok() {
      flowBuckets > 0 && sourceBuckets > 0
    }

    function Window(): (r: int) {
      windowSeconds * NS_PER_SECOND
    }
  }

  datatype Table = Table(
    tracks: map<FiveTuple, Track>, sources: map<Ip, SourceStats>, flowCursor: nat, sourceCursor: nat)

  // The 64-bit polynomial hash of a key and its bucket.
  function FlowHash(t: FiveTuple): (r: nat) {
    ((((t.srcIp * 31 + t.dstIp) * 31 + t.srcPort) * 31 + t.dstPort) * 31 + t.protocol) % 0x1_0000_0000_0000_0000
  }

  function FlowBucket(t: FiveTuple, lim: Limits): (b: nat)
    requires lim.Ok()
    ensures b < lim.flowBuckets
  {
    FlowHash(t) % lim.flowBuckets
  }

  function SourceBucket(ip: Ip, lim: Limits): (b: nat)
    requires lim.Ok()
    ensures b < lim.sourceBuckets
  {
    ip % lim.sourceBuckets
  }

  // The stored key of a conversation, asked for in either orientation.
  function Find<V>(m: map<FiveTuple, V>, key: FiveTuple): (r: Option<FiveTuple>) {
    if key in m then Some(key)
    else if key.Reversed() in m then Some(key.Reversed())
    else None
  }

  // Which flow a packet was counted in, and on which side.
  datatype Hit = Hit(key: FiveTuple, isForward: bool)

  function OriginOf(dir: Direction): (r: Origin) {
    if dir.Outbound? then LocalInitiated else RemoteInitiated
  }

  function UpdateFlow(tracks: map<FiveTuple, Track>, lim: Limits, p: Packet, dir: Direction, now: Time)
    : (r: (map<FiveTuple, Track>, Option<Hit>))
  {
    match Find(tracks, p.tuple)
    case Some(k) =>
      var isForward := k == p.tuple;
      (tracks[k := tracks[k].(seen := tracks[k].seen + [Seen(p, isForward, now)])], Some(Hit(k, isForward)))
    case None =>
      if |tracks| < lim.maxFlows then
        (tracks[p.tuple := Track(OriginOf(dir), [Seen(p, true, now)])], Some(Hit(p.tuple, true)))
      else
        (tracks, None)
  }

  function UpdateSource(sources: map<Ip, SourceStats>, lim: Limits, p: Packet, now: Time)
    : (r: (map<Ip, SourceStats>, Option<SourceStats>))
  {
    var ip := p.tuple.srcIp;
    if ip !in sources && |sources| >= lim.maxSources then
      (sources, None)
    else
      var open := ip in sources && now - sources[ip].windowStart < lim.Window();
      var before := if open then sources[ip] else SourceStats({}, 0, now);
      var after := SourceStats(before.ports + {p.tuple.dstPort},
                               if Syn(p.tcpFlags) then before.synCount + 1 else before.synCount,
                               before.windowStart);
      (sources[ip := after], Some(after))
  }

  // Source windows count inbound packets that open or continue a remote flow,
  // and inbound packets for which no flow could be stored.
  predicate CountsSource(tracks: map<FiveTuple, Track>, hit: Option<Hit>, dir: Direction) {
    && dir.Inbound?
    && (hit.Some? ==> hit.value.isForward && hit.value.key in tracks && tracks[hit.value.key].origin.RemoteInitiated?)
  }

  function Observe(t: Table, lim: Limits, p: Packet, dir: Direction, now: Time): (r: (Table, Option<SourceStats>)) {
    if dir.UnknownDirection? then (t, None)
    else
      var (tracks, hit) := UpdateFlow(t.tracks, lim, p, dir, now);
      if CountsSource(tracks, hit, dir) then
        var (sources, stats) := UpdateSource(t.sources, lim, p, now);
        (t.(tracks := tracks, sources := sources), stats)
      else
        (t.(tracks := tracks), None)
  }

  function Remove(t: Table, key: FiveTuple): (r: Table) {
    t.(tracks := t.tracks - {key})
  }

  // A history starts with the packet that opened the flow, and each packet in
  // it carried the key, or its reverse, as its direction says.
  predicate SoundTrack(key: FiveTuple, track: Track) {
    && track.seen != [] && track.seen[0].isForward
    && forall i | 0 <= i < |track.seen| ::
         track.seen[i].packet.tuple == if track.seen[i].isForward then key else key.Reversed()
  }

  // A stored history is sound and its conversation is not stored twice.
  predicate SoundAt(tracks: map<FiveTuple, Track>, k: FiveTuple) {
    k in tracks && SoundTrack(k, tracks[k]) && (k.Reversed() in tracks ==> k.Reversed() == k)
  }

  // The trigger keeps this folded up until a lemma looks at one key.
  predicate Sound(t: Table) {
    forall k {:trigger SoundAt(t.tracks, k)} | k in t.tracks :: SoundAt(t.tracks, k)
  }

  // The record of a stored flow.
  function FlowOf(t: Table, k: FiveTuple): (r: Flow)
    requires Sound(t) && k in t.tracks
  {
    assert SoundAt(t.tracks, k);
    Record(k, t.tracks[k])
  }

  // Takes a finished flow out of the table.
  function ExtractCompleted(t: Table, key: FiveTuple): (r: (Table, Option<EndedFlow>))
    requires Sound(t)
  {
    match Find(t.tracks, key)
    case None => (t, None)
    case Some(k) =>
      if SawReset(t.tracks[k].seen) then (Remove(t, k), Some(EndedFlow(FlowOf(t, k), TcpReset)))
      else if HandshakeComplete(t.tracks[k].seen) then (Remove(t, k), Some(EndedFlow(FlowOf(t, k), TcpFin)))
      else (t, None)
  }

  function DiscardSource(t: Table, ip: Ip): (r: Table) {
    t.(tracks := map k | k in t.tracks && k.srcIp != ip :: t.tracks[k])
  }

  function LastAt(track: Track): (r: Time)
    requires track.seen != []
  {
    track.seen[|track.seen| - 1].at
  }

  predicate TimedOut(track: Track, now: Time) {
    track.seen != [] && now - LastAt(track) >= FLOW_TIMEOUT_SEC * NS_PER_SECOND
  }

  predicate WindowOver(s: SourceStats, lim: Limits, now: Time) {
    now - s.windowStart >= lim.Window()
  }

  // The flows a tick returns: timed out, and in a bucket it scans.
  ghost predicate Sweeps(tracks: map<FiveTuple, Track>, cursor: nat, lim: Limits, now: Time, k: FiveTuple)
    requires lim.Ok()
  {
    k in tracks && TimedOut(tracks[k], now) && Sweep.Visited(cursor, lim.flowBuckets, FlowBucket(k, lim))
  }

  ghost predicate SweepsWindow(sources: map<Ip, SourceStats>, cursor: nat, lim: Limits, now: Time, ip: Ip)
    requires lim.Ok()
  {
    ip in sources && WindowOver(sources[ip], lim, now) && Sweep.Visited(cursor, lim.sourceBuckets, SourceBucket(ip, lim))
  }

  ghost function SweepTracks(tracks: map<FiveTuple, Track>, cursor: nat, lim: Limits, now: Time): (r: map<FiveTuple, Track>)
    requires lim.Ok()
  {
    map k | k in tracks && !Sweeps(tracks, cursor, lim, now, k) :: tracks[k]
  }

  ghost function SweepWindows(sources: map<Ip, SourceStats>, cursor: nat, lim: Limits, now: Time): (r: map<Ip, SourceStats>)
    requires lim.Ok()
  {
    map ip | ip in sources && !SweepsWindow(sources, cursor, lim, now, ip) :: sources[ip]
  }

  ghost function Tick(t: Table, lim: Limits, now: Time): (r: Table)
    requires lim.Ok()
  {
    Table(SweepTracks(t.tracks, t.flowCursor, lim, now),
          SweepWindows(t.sources, t.sourceCursor, lim, now),
          Sweep.NextCursor(t.flowCursor, lim.flowBuckets),
          Sweep.NextCursor(t.sourceCursor, lim.sourceBuckets))
  }

  // Whether a tick at now returns the flow stored under k.
  ghost predicate Swept(t: Table, lim: Limits, now: Time, k: FiveTuple)
    requires lim.Ok()
  {
    Sweeps(t.tracks, t.flowCursor, lim, now, k)
  }

  // A list of the flows a tick returns: each swept flow exactly once.
  ghost predicate ListsSwept(ended: seq<EndedFlow>, t: Table, lim: Limits, now: Time)
    requires lim.Ok() && Sound(t)
  {
    && (forall i | 0 <= i < |ended| ::
          && ended[i].reason == Timeout
          && Swept(t, lim, now, ended[i].flow.key)
          && ended[i].flow == FlowOf(t, ended[i].flow.key))
    && (forall i, j | 0 <= i < j < |ended| :: ended[i].flow.key != ended[j].flow.key)
    && (forall k | Swept(t, lim, now, k) :: exists i | 0 <= i < |ended| :: ended[i].flow.key == k)
  }

  predicate WithinCaps(t: Table, lim: Limits) {
    && lim.Ok()
    && |t.tracks| <= lim.maxFlows && |t.sources| <= lim.maxSources
    && t.flowCursor < lim.flowBuckets && t.sourceCursor < lim.sourceBuckets
  }

  predicate Inv(t: Table, lim: Limits) {
    Sound(t) && WithinCaps(t, lim)
  }

  const INITIAL := Table(map[], map[], 0, 0)

  datatype Op =
    | ObserveOp(p: Packet, dir: Direction, now: Time)
    | ExtractOp(key: FiveTuple)
    | DiscardOp(ip: Ip)
    | TickOp(now: Time)

  ghost function Apply(t: Table, lim: Limits, op: Op): (r: Table)
    requires Inv(t, lim)
  {
    match op
    case ObserveOp(p, dir, now) => Observe(t, lim, p, dir, now).0
    case ExtractOp(key) => ExtractCompleted(t, key).0
    case DiscardOp(ip) => DiscardSource(t, ip)
    case TickOp(now) => Tick(t, lim, now)
  }

  lemma SubsetSize<K, V>(m: map<K, V>, n: map<K, V>)
    requires n.Keys <= m.Keys
    ensures |n| <= |m|
    decreases |m|
  {
    if n.Keys != {} {
      var k :| k in n.Keys;
      var m', n' := m - {k}, n - {k};
      assert n'.Keys == n.Keys - {k} && m'.Keys == m.Keys - {k};
      assert |n'.Keys| == |n.Keys| - 1 && |m'.Keys| == |m.Keys| - 1;
      SubsetSize(m', n');
    }
  }

  // Dropping flows and windows breaks nothing.
  lemma ShrinkKeepsInv(t: Table, t': Table, lim: Limits)
    requires Inv(t, lim)
    requires t'.tracks.Keys <= t.tracks.Keys && (forall k | k in t'.tracks :: t'.tracks[k] == t.tracks[k])
    requires t'.sources.Keys <= t.sources.Keys
    requires t'.flowCursor < lim.flowBuckets && t'.sourceCursor < lim.sourceBuckets
    ensures Inv(t', lim)
  {
    SubsetSize(t.tracks, t'.tracks);
    SubsetSize(t.sources, t'.sources);
    forall k | k in t'.tracks ensures SoundAt(t'.tracks, k) {
      assert SoundAt(t.tracks, k);
    }
  }

  lemma UpdateSourceSize(sources: map<Ip, SourceStats>, lim: Limits, p: Packet, now: Time)
    requires |sources| <= lim.maxSources
    ensures |UpdateSource(sources, lim, p, now).0| <= lim.maxSources
  {
    var sources' := UpdateSource(sources, lim, p, now).0;
    assert sources'.Keys <= sources.Keys + {p.tuple.srcIp};
    if p.tuple.srcIp in sources {
      assert sources'.Keys == sources.Keys;
    }
  }

  lemma ReversedTwice(k: FiveTuple)
    ensures k.Reversed().Reversed() == k
  {
  }

  lemma ExtendKeepsSound(k: FiveTuple, track: Track, p: Packet, now: Time)
    requires SoundTrack(k, track) && (k == p.tuple || k == p.tuple.Reversed())
    ensures SoundTrack(k, track.(seen := track.seen + [Seen(p, k == p.tuple, now)]))
  {
    ReversedTwice(p.tuple);
  }

  lemma UpdateFlowKeepsSound(t: Table, lim: Limits, p: Packet, dir: Direction, now: Time)
    requires Sound(t) && |t.tracks| <= lim.maxFlows
    ensures var tracks := UpdateFlow(t.tracks, lim, p, dir, now).0;
            Sound(t.(tracks := tracks)) && |tracks| <= lim.maxFlows
  {
    var tracks := UpdateFlow(t.tracks, lim, p, dir, now).0;
    ReversedTwice(p.tuple);
    match Find(t.tracks, p.tuple)
    case Some(k) =>
      assert tracks.Keys == t.tracks.Keys;
      assert SoundAt(t.tracks, k);
      ExtendKeepsSound(k, t.tracks[k], p, now);
      forall j | j in tracks ensures SoundAt(tracks, j) {
        assert SoundAt(t.tracks, j);
      }
    case None =>
      assert tracks.Keys <= t.tracks.Keys + {p.tuple};
      forall j | j in tracks ensures SoundAt(tracks, j) {
        ReversedTwice(j);
        if j in t.tracks {
          assert SoundAt(t.tracks, j);
        }
      }
  }

  lemma ObserveKeepsInv(t: Table, lim: Limits, p: Packet, dir: Direction, now: Time)
    requires Inv(t, lim)
    ensures Inv(Observe(t, lim, p, dir, now).0, lim)
  {
    UpdateFlowKeepsSound(t, lim, p, dir, now);
    UpdateSourceSize(t.sources, lim, p, now);
  }

  /** Every operation keeps one orientation per conversation, sound histories,
      the caps and the cursors in range. */
  lemma ApplyKeepsInv(t: Table, lim: Limits, op: Op)
    requires Inv(t, lim)
    ensures Inv(Apply(t, lim, op), lim)
  {
    match op
    case ObserveOp(p, dir, now) => ObserveKeepsInv(t, lim, p, dir, now);
    case ExtractOp(key) => ShrinkKeepsInv(t, ExtractCompleted(t, key).0, lim);
    case DiscardOp(ip) => ShrinkKeepsInv(t, DiscardSource(t, ip), lim);
    case TickOp(now) => ShrinkKeepsInv(t, Tick(t, lim, now), lim);
  }

  /** Either orientation of a key finds the same flow. */
  lemma FindEitherWay(t: Table, key: FiveTuple)
    requires Sound(t)
    ensures Find(t.tracks, key) == Find(t.tracks, key.Reversed())
  {
    ReversedTwice(key);
    if key in t.tracks {
      assert SoundAt(t.tracks, key);
    }
  }

  // An operation is only defined on a table that meets its invariant; that every
  // table of a run does is proved, not assumed.
  ghost predicate Applies(t: Table, lim: Limits, op: Op, t': Table) {
    Inv(t, lim) ==> t' == Apply(t, lim, op)
  }

  // A run: the states an operation sequence passes through.
  ghost predicate IsRun(states: seq<Table>, ops: seq<Op>, lim: Limits) {
    && |states| == |ops| + 1
    && Inv(states[0], lim)
    && forall i | 0 <= i < |ops| :: Applies(states[i], lim, ops[i], states[i + 1])
  }

  lemma {:induction false} RunKeepsInv(states: seq<Table>, ops: seq<Op>, lim: Limits, n: nat)
    requires IsRun(states, ops, lim) && n <= |ops|
    ensures Inv(states[n], lim)
    ensures n < |ops| ==> states[n + 1] == Apply(states[n], lim, ops[n])
  {
    hide Inv, Apply;
    if n > 0 {
      RunKeepsInv(states, ops, lim, n - 1);
      ApplyKeepsInv(states[n - 1], lim, ops[n - 1]);
    }
    assert n < |ops| ==> Applies(states[n], lim, ops[n], states[n + 1]);
  }

  function TickCount(ops: seq<Op>): (r: nat) {
    if ops == [] then 0 else TickCount(ops[..|ops| - 1]) + (if ops[|ops| - 1].TickOp? then 1 else 0)
  }

  lemma CursorStep(t: Table, lim: Limits, op: Op)
    requires Inv(t, lim)
    ensures Apply(t, lim, op).flowCursor ==
            if op.TickOp? then Sweep.NextCursor(t.flowCursor, lim.flowBuckets) else t.flowCursor
    ensures Apply(t, lim, op).sourceCursor ==
            if op.TickOp? then Sweep.NextCursor(t.sourceCursor, lim.sourceBuckets) else t.sourceCursor
  {
  }

  // Both cursors depend on the number of ticks alone.
  lemma {:induction false} CursorByTicks(states: seq<Table>, ops: seq<Op>, lim: Limits, n: nat)
    requires IsRun(states, ops, lim) && n <= |ops|
    ensures states[n].flowCursor == Sweep.CursorAfter(states[0].flowCursor, lim.flowBuckets, TickCount(ops[..n]))
    ensures states[n].sourceCursor == Sweep.CursorAfter(states[0].sourceCursor, lim.sourceBuckets, TickCount(ops[..n]))
  {
    hide Apply, Sound;
    if n > 0 {
      CursorByTicks(states, ops, lim, n - 1);
      RunKeepsInv(states, ops, lim, n - 1);
      CursorStep(states[n - 1], lim, ops[n - 1]);
      assert ops[..n][..n - 1] == ops[..n - 1];
    }
  }

  // The position of the tick that follows t earlier ones.
  lemma {:induction false} NthTick(ops: seq<Op>, t: nat) returns (i: nat)
    requires t < TickCount(ops)
    ensures i < |ops| && ops[i].TickOp? && TickCount(ops[..i]) == t
  {
    var n := |ops| - 1;
    if TickCount(ops[..n]) > t {
      i := NthTick(ops[..n], t);
      assert ops[..n][..i] == ops[..i];
    } else {
      i := n;
    }
  }

  // Step i is where the flow stops being what it was: a tick returns it, or
  // another operation touched or removed it.
  ghost predicate Leaves(states: seq<Table>, ops: seq<Op>, lim: Limits, k: FiveTuple, track: Track, i: nat)
    requires IsRun(states, ops, lim) && i < |ops|
  {
    && k in states[i].tracks && states[i].tracks[k] == track
    && if ops[i].TickOp? then Swept(states[i], lim, ops[i].now, k)
       else !(k in states[i + 1].tracks && states[i + 1].tracks[k] == track)
  }

  lemma {:induction false} FirstChange(states: seq<Table>, ops: seq<Op>, lim: Limits, k: FiveTuple, track: Track, n: nat)
    returns (j: nat)
    requires IsRun(states, ops, lim) && n <= |ops|
    requires k in states[0].tracks && states[0].tracks[k] == track
    requires !(k in states[n].tracks && states[n].tracks[k] == track)
    ensures j < n && Leaves(states, ops, lim, k, track, j)
  {
    if k in states[n - 1].tracks && states[n - 1].tracks[k] == track {
      j := n - 1;
      RunKeepsInv(states, ops, lim, n - 1);
    } else {
      j := FirstChange(states, ops, lim, k, track, n - 1);
    }
  }

  /** Sweep coverage over whole runs: a flow that no packet touches and that is
      timed out at every tick cannot outlive 11 ticks, whatever else happens. */
  lemma TimedOutFlowIsSwept(states: seq<Table>, ops: seq<Op>, lim: Limits, k: FiveTuple, track: Track)
    requires IsRun(states, ops, lim)
    requires TickCount(ops) >= 11
    requires forall i | 0 <= i < |ops| && ops[i].TickOp? :: TimedOut(track, ops[i].now)
    requires k in states[0].tracks && states[0].tracks[k] == track
    ensures exists i | 0 <= i < |ops| :: Leaves(states, ops, lim, k, track, i)
  {
    var b := FlowBucket(k, lim);
    Sweep.ElevenTicksCover(states[0].flowCursor, lim.flowBuckets, b);
    var t: nat :| t < 11 && Sweep.Visited(Sweep.CursorAfter(states[0].flowCursor, lim.flowBuckets, t), lim.flowBuckets, b);
    var i := NthTick(ops, t);
    CursorByTicks(states, ops, lim, i);
    if k in states[i].tracks && states[i].tracks[k] == track {
      assert Leaves(states, ops, lim, k, track, i);
    } else {
      var j := FirstChange(states, ops, lim, k, track, i);
    }
  }

  // The same for a source's window: a tick sweeps it, or a packet was counted in it.
  ghost predicate WindowLeaves(states: seq<Table>, ops: seq<Op>, lim: Limits, ip: Ip, w: SourceStats, i: nat)
    requires IsRun(states, ops, lim) && i < |ops|
  {
    && ip in states[i].sources && states[i].sources[ip] == w
    && if ops[i].TickOp? then SweepsWindow(states[i].sources, states[i].sourceCursor, lim, ops[i].now, ip)
       else ip in states[i + 1].sources && states[i + 1].sources[ip] != w
  }

  // Only a tick removes a window, and then sweeps it.
  lemma WindowStays(t: Table, lim: Limits, op: Op, ip: Ip)
    requires Inv(t, lim) && ip in t.sources
    ensures var t' := Apply(t, lim, op);
            if op.TickOp? then SweepsWindow(t.sources, t.sourceCursor, lim, op.now, ip)
                               || (ip in t'.sources && t'.sources[ip] == t.sources[ip])
            else ip in t'.sources
  {
    hide Sound, Sweep.Visited, UpdateFlow, SweepTracks, Summary;
  }

  lemma {:induction false} FirstWindowChange(states: seq<Table>, ops: seq<Op>, lim: Limits, ip: Ip, w: SourceStats, n: nat)
    returns (j: nat)
    requires IsRun(states, ops, lim) && n <= |ops|
    requires ip in states[0].sources && states[0].sources[ip] == w
    requires !(ip in states[n].sources && states[n].sources[ip] == w)
    ensures j < n && WindowLeaves(states, ops, lim, ip, w, j)
  {
    hide Inv, Apply, SweepsWindow;
    if ip in states[n - 1].sources && states[n - 1].sources[ip] == w {
      j := n - 1;
      RunKeepsInv(states, ops, lim, n - 1);
      WindowStays(states[n - 1], lim, ops[n - 1], ip);
    } else {
      j := FirstWindowChange(states, ops, lim, ip, w, n - 1);
    }
  }

  /** The second sweep, with its own cursor: a window that is over at every tick
      cannot outlive 11 ticks, unless a packet of its source is counted first. */
  lemma FinishedWindowIsSwept(states: seq<Table>, ops: seq<Op>, lim: Limits, ip: Ip, w: SourceStats)
    requires IsRun(states, ops, lim)
    requires TickCount(ops) >= 11
    requires forall i | 0 <= i < |ops| && ops[i].TickOp? :: WindowOver(w, lim, ops[i].now)
    requires ip in states[0].sources && states[0].sources[ip] == w
    ensures exists i | 0 <= i < |ops| :: WindowLeaves(states, ops, lim, ip, w, i)
  {
    hide Sound;
    var b := SourceBucket(ip, lim);
    Sweep.ElevenTicksCover(states[0].sourceCursor, lim.sourceBuckets, b);
    var t: nat :| t < 11 && Sweep.Visited(Sweep.CursorAfter(states[0].sourceCursor, lim.sourceBuckets, t), lim.sourceBuckets, b);
    var i := NthTick(ops, t);
    CursorByTicks(states, ops, lim, i);
    if ip in states[i].sources && states[i].sources[ip] == w {
      assert WindowLeaves(states, ops, lim, ip, w, i);
    } else {
      var j := FirstWindowChange(states, ops, lim, ip, w, i);
    }
  }

  ghost function ReturnedKeys(ended: seq<EndedFlow>): (r: set<FiveTuple>) {
    set i | 0 <= i < |ended| :: ended[i].flow.key
  }

  lemma ReturnedAreSwept(t: Table, lim: Limits, now: Time, ended: seq<EndedFlow>, k: FiveTuple)
    requires Inv(t, lim) && ListsSwept(ended, t, lim, now)
    ensures k in ReturnedKeys(ended) <==> Swept(t, lim, now, k)
  {
    if k in ReturnedKeys(ended) {
      var i :| 0 <= i < |ended| && ended[i].flow.key == k;
      assert Swept(t, lim, now, ended[i].flow.key);
    }
    if Swept(t, lim, now, k) {
      var i :| 0 <= i < |ended| && ended[i].flow.key == k;
    }
  }

  lemma {:induction false} DistinctCount(ended: seq<EndedFlow>)
    requires forall i, j | 0 <= i < j < |ended| :: ended[i].flow.key != ended[j].flow.key
    ensures |ReturnedKeys(ended)| == |ended|
  {
    if ended != [] {
      var n := |ended| - 1;
      var front := ended[..n];
      DistinctCount(front);
      assert ended[n].flow.key !in ReturnedKeys(front);
      assert ReturnedKeys(ended) == ReturnedKeys(front) + {ended[n].flow.key};
    }
  }

  /** A tick splits the old table: what it returns and what it keeps are
      disjoint, cover everything, and only timed-out flows are returned. */
  lemma TickPartitions(t: Table, lim: Limits, now: Time, ended: seq<EndedFlow>)
    requires Inv(t, lim) && ListsSwept(ended, t, lim, now)
    ensures var kept := Tick(t, lim, now).tracks;
            && kept.Keys !! ReturnedKeys(ended) && kept.Keys + ReturnedKeys(ended) == t.tracks.Keys
            && (forall k | k in kept :: kept[k] == t.tracks[k])
            && (forall k | k in ReturnedKeys(ended) :: k in t.tracks && TimedOut(t.tracks[k], now))
            && |kept| + |ended| == |t.tracks|
  {
    var kept := Tick(t, lim, now).tracks.Keys;
    var returned := ReturnedKeys(ended);
    forall k ensures k in returned <==> k in t.tracks && k !in kept {
      ReturnedAreSwept(t, lim, now, ended, k);
    }
    DistinctCount(ended);
    assert kept + returned == t.tracks.Keys;
    assert |kept + returned| == |kept| + |returned|;
  }
}
