/** The flow manager as it runs: records updated in place, a secondary index by
    source address, and the two incremental sweeps. */
module FlowManagement {
  import opened Common
  import opened FlowModel
  import opened FlowTable
  import Sweep

  function Group(keys: set<FiveTuple>, ip: Ip): (r: set<FiveTuple>) {
    set k | k in keys && k.srcIp == ip
  }

  // The index is exactly the grouping of the stored keys by source address,
  // without empty groups.
  ghost predicate Indexed(index: map<Ip, set<FiveTuple>>, keys: set<FiveTuple>) {
    && (forall ip | ip in index :: index[ip] == Group(keys, ip) && index[ip] != {})
    && (forall k | k in keys :: k.srcIp in index)
  }

  ghost predicate Matches(flow: Flow, k: FiveTuple, track: Track) {
    track.seen != [] && flow == Record(k, track)
  }

  // The record stored under k is the summary of k's history.
  ghost predicate Linked(flows: map<FiveTuple, Flow>, tracks: map<FiveTuple, Track>, k: FiveTuple) {
    k in flows && k in tracks && Matches(flows[k], k, tracks[k])
  }

  // The trigger keeps the summaries folded up until a lemma asks for one.
  ghost predicate StandsFor(flows: map<FiveTuple, Flow>, tracks: map<FiveTuple, Track>) {
    && flows.Keys == tracks.Keys
    && forall k {:trigger Linked(flows, tracks, k)} | k in tracks :: Linked(flows, tracks, k)
  }

  // Replacing the entry of one key leaves the other summaries alone.
  lemma KeepStandsFor(flows: map<FiveTuple, Flow>, tracks: map<FiveTuple, Track>, key: FiveTuple, flow: Flow, track: Track)
    requires StandsFor(flows, tracks) && Matches(flow, key, track)
    ensures StandsFor(flows[key := flow], tracks[key := track])
  {
    hide Record;
    var flows', tracks' := flows[key := flow], tracks[key := track];
    forall k | k in tracks' ensures Linked(flows', tracks', k) {
      if k != key {
        assert Linked(flows, tracks, k);
      }
    }
  }

  lemma ExtendStandsFor(flows: map<FiveTuple, Flow>, tracks: map<FiveTuple, Track>, key: FiveTuple, s: Seen)
    requires StandsFor(flows, tracks) && key in tracks
    ensures StandsFor(flows[key := Advance(flows[key], s.packet, s.isForward, s.at)],
                      tracks[key := tracks[key].(seen := tracks[key].seen + [s])])
  {
    assert Linked(flows, tracks, key);
    RecordAppend(key, tracks[key], s);
    KeepStandsFor(flows, tracks, key, Advance(flows[key], s.packet, s.isForward, s.at),
                  tracks[key].(seen := tracks[key].seen + [s]));
  }

  lemma CreateStandsFor(flows: map<FiveTuple, Flow>, tracks: map<FiveTuple, Track>, key: FiveTuple, origin: Origin, s: Seen)
    requires StandsFor(flows, tracks) && s.isForward
    ensures StandsFor(flows[key := Advance(NewFlow(key, origin, s.at), s.packet, true, s.at)],
                      tracks[key := Track(origin, [s])])
  {
    RecordCreate(key, origin, s);
    KeepStandsFor(flows, tracks, key, Advance(NewFlow(key, origin, s.at), s.packet, true, s.at), Track(origin, [s]));
  }

  lemma EraseStandsFor(flows: map<FiveTuple, Flow>, tracks: map<FiveTuple, Track>, gone: set<FiveTuple>)
    requires StandsFor(flows, tracks)
    ensures StandsFor(flows - gone, tracks - gone)
  {
    forall k | k in tracks - gone ensures Linked(flows - gone, tracks - gone, k) {
      assert Linked(flows, tracks, k);
    }
  }

  lemma StoredKeys(flows: map<FiveTuple, Flow>, tracks: map<FiveTuple, Track>)
    requires StandsFor(flows, tracks)
    ensures flows.Keys == tracks.Keys && |flows| == |tracks|
  {
    assert |flows| == |flows.Keys| && |tracks| == |tracks.Keys|;
  }

  // What the code reads of a stored record, in terms of its history.
  lemma StoredRecord(flows: map<FiveTuple, Flow>, tracks: map<FiveTuple, Track>, k: FiveTuple)
    requires StandsFor(flows, tracks) && k in tracks
    ensures k in flows && tracks[k].seen != [] && flows[k] == Record(k, tracks[k])
    ensures flows[k].origin == tracks[k].origin && flows[k].key == k && flows[k].lastSeen == LastAt(tracks[k])
    ensures flows[k].forward.rst > 0 || flows[k].backward.rst > 0 <==> SawReset(tracks[k].seen)
    ensures flows[k].finHandshakeComplete <==> HandshakeComplete(tracks[k].seen)
  {
    assert Linked(flows, tracks, k);
    TerminalTests(k, tracks[k]);
  }

  lemma IndexInsert(index: map<Ip, set<FiveTuple>>, keys: set<FiveTuple>, key: FiveTuple)
    requires Indexed(index, keys)
    ensures Indexed(index[key.srcIp := (if key.srcIp in index then index[key.srcIp] else {}) + {key}], keys + {key})
  {
    forall ip ensures Group(keys + {key}, ip) == if ip == key.srcIp then Group(keys, ip) + {key} else Group(keys, ip) {
    }
    if key.srcIp !in index {
      assert Group(keys, key.srcIp) == {};
    }
  }

  lemma IndexErase(index: map<Ip, set<FiveTuple>>, keys: set<FiveTuple>, key: FiveTuple)
    requires Indexed(index, keys) && key.srcIp in index
    ensures var group := index[key.srcIp] - {key};
            Indexed(if group == {} then index - {key.srcIp} else index[key.srcIp := group], keys - {key})
  {
    forall ip ensures Group(keys - {key}, ip) == if ip == key.srcIp then Group(keys, ip) - {key} else Group(keys, ip) {
    }
    forall k | k in keys && k != key && k.srcIp == key.srcIp ensures k in index[key.srcIp] - {key} {
      assert k in Group(keys, key.srcIp);
    }
  }

  lemma IndexDiscard(index: map<Ip, set<FiveTuple>>, keys: set<FiveTuple>, srcIp: Ip)
    requires Indexed(index, keys) && srcIp in index
    ensures Indexed(index - {srcIp}, keys - index[srcIp])
    ensures index[srcIp] == Group(keys, srcIp)
  {
    var rest := keys - Group(keys, srcIp);
    forall ip | ip != srcIp ensures Group(rest, ip) == Group(keys, ip) {
    }
  }

  // Discarding a source through the index is discarding it by address.
  lemma DiscardByIndex(t: Table, flows: map<FiveTuple, Flow>, index: map<Ip, set<FiveTuple>>, srcIp: Ip)
    requires StandsFor(flows, t.tracks) && Indexed(index, flows.Keys)
    ensures var group := if srcIp in index then index[srcIp] else {};
            && DiscardSource(t, srcIp) == t.(tracks := t.tracks - group)
            && StandsFor(flows - group, t.tracks - group)
            && Indexed(index - {srcIp}, (flows - group).Keys)
    ensures srcIp !in index ==> index - {srcIp} == index && flows - {} == flows && t.tracks - {} == t.tracks
  {
    hide Record;
    var tracks := t.tracks;
    var group := if srcIp in index then index[srcIp] else {};
    assert tracks - group == (map k | k in tracks && k.srcIp != srcIp :: tracks[k]) by {
      if srcIp in index {
        IndexDiscard(index, flows.Keys, srcIp);
      }
    }
    if srcIp in index {
      IndexDiscard(index, flows.Keys, srcIp);
      EraseStandsFor(flows, tracks, index[srcIp]);
      assert (flows - index[srcIp]).Keys == flows.Keys - index[srcIp];
    } else {
      EraseStandsFor(flows, tracks, {});
      assert index - {srcIp} == index;
      assert (flows - {}).Keys == flows.Keys;
    }
  }

  // The buckets among the first n scanned from cursor.
  ghost predicate VisitedBefore(cursor: nat, buckets: nat, n: nat, b: nat)
    requires buckets > 0
  {
    exists j: nat | j < n :: Sweep.Scanned(cursor, j, buckets) == b
  }

  // First half of a sweep: the expired keys of the scanned buckets.
  method CollectDoomed<K(==), V>(m: map<K, V>, cursor: nat, buckets: nat, bucketOf: K -> nat, isExpired: V -> bool)
    returns (doomed: seq<K>, next: nat)
    requires buckets > 0
    ensures forall i, j | 0 <= i < j < |doomed| :: doomed[i] != doomed[j]
    ensures forall k :: k in doomed <==> k in m && isExpired(m[k]) && Sweep.Visited(cursor, buckets, bucketOf(k))
    ensures next == Sweep.NextCursor(cursor, buckets)
  {
    doomed := [];
    var quota := Sweep.Quota(buckets);
    var i := 0;
    while i < quota && i < buckets
      invariant 0 <= i <= quota && i <= buckets
      invariant forall i, j | 0 <= i < j < |doomed| :: doomed[i] != doomed[j]
      invariant forall k :: k in doomed <==> k in m && isExpired(m[k]) && VisitedBefore(cursor, buckets, i, bucketOf(k))
    {
      var b := Sweep.Scanned(cursor, i, buckets);
      forall j: nat | j < i ensures Sweep.Scanned(cursor, j, buckets) != b {
        Sweep.NoBucketTwice(cursor, buckets, i, j);
      }
      var bucket := set k | k in m && bucketOf(k) == b;
      ghost var before := doomed;
      while bucket != {}
        invariant bucket <= set k | k in m && bucketOf(k) == b
        invariant forall i, j | 0 <= i < j < |doomed| :: doomed[i] != doomed[j]
        invariant forall k :: k in doomed <==> k in before || (k in m && bucketOf(k) == b && k !in bucket && isExpired(m[k]))
        decreases bucket
      {
        var k :| k in bucket;
        if isExpired(m[k]) {
          doomed := doomed + [k];
        }
        bucket := bucket - {k};
      }
      forall c ensures VisitedBefore(cursor, buckets, i + 1, c) <==> VisitedBefore(cursor, buckets, i, c) || c == b {
        if c == b {
          assert Sweep.Scanned(cursor, i, buckets) == c;
        }
      }
      i := i + 1;
    }
    forall c ensures VisitedBefore(cursor, buckets, i, c) <==> Sweep.Visited(cursor, buckets, c) {
      if VisitedBefore(cursor, buckets, i, c) {
        var j: nat :| j < i && Sweep.Scanned(cursor, j, buckets) == c;
        assert Sweep.Scans(buckets, j);
      }
    }
    next := (cursor + quota) % buckets;
  }

  lemma DoomedAreSwept(flows: map<FiveTuple, Flow>, tracks: map<FiveTuple, Track>, cursor: nat, lim: Limits,
                      now: Time, doomed: seq<FiveTuple>)
    requires StandsFor(flows, tracks) && lim.Ok()
    requires forall k :: k in doomed <==>
                         && k in flows && now - flows[k].lastSeen >= FLOW_TIMEOUT_SEC * NS_PER_SECOND
                         && Sweep.Visited(cursor, lim.flowBuckets, FlowHash(k) % lim.flowBuckets)
    ensures forall k :: k in doomed <==> Sweeps(tracks, cursor, lim, now, k)
    ensures SweepTracks(tracks, cursor, lim, now) == tracks - set k | k in doomed
  {
    hide Record;
    forall k ensures k in doomed <==> Sweeps(tracks, cursor, lim, now, k) {
      if k in tracks {
        StoredRecord(flows, tracks, k);
      }
    }
  }

  // The timed-out records of the listed keys, in order.
  ghost predicate ReturnedFor(ended: seq<EndedFlow>, tracks: map<FiveTuple, Track>, keys: seq<FiveTuple>) {
    && |ended| == |keys|
    && forall i | 0 <= i < |keys| ::
         ended[i].reason == Timeout && keys[i] in tracks && Matches(ended[i].flow, keys[i], tracks[keys[i]])
  }

  lemma ListsDoomed(ended: seq<EndedFlow>, t: Table, lim: Limits, now: Time, doomed: seq<FiveTuple>)
    requires lim.Ok() && Sound(t)
    requires ReturnedFor(ended, t.tracks, doomed)
    requires forall i, j | 0 <= i < j < |doomed| :: doomed[i] != doomed[j]
    requires forall k :: k in doomed <==> Swept(t, lim, now, k)
    ensures ListsSwept(ended, t, lim, now)
  {
    forall i | 0 <= i < |ended|
      ensures ended[i].flow.key == doomed[i] && ended[i].flow == FlowOf(t, doomed[i]) && Swept(t, lim, now, doomed[i])
    {
      assert doomed[i] in doomed;
      assert Matches(ended[i].flow, doomed[i], t.tracks[doomed[i]]);
    }
    hide Record, Matches;
    forall k | Swept(t, lim, now, k) ensures exists i | 0 <= i < |ended| :: ended[i].flow.key == k {
      var i :| 0 <= i < |doomed| && doomed[i] == k;
      assert ended[i].flow.key == k;
    }
  }

  class FlowManager {
    var flows: map<FiveTuple, Flow>
    var keysBySource: map<Ip, set<FiveTuple>>
    var sourceStats: map<Ip, SourceStats>
    var flowCursor: nat
    var sourceCursor: nat
    const limits: Limits
    // The packets each live flow stands for.
    ghost var tracks: map<FiveTuple, Track>

    ghost function View(): (r: Table)
      reads this
    {
      Table(tracks, sourceStats, flowCursor, sourceCursor)
    }

    ghost predicate Stored()
      reads this
    {
      StandsFor(flows, tracks) && Indexed(keysBySource, flows.Keys)
    }

    ghost predicate Valid()
      reads this
    {
      && Inv(View(), limits)
      && Stored()
    }

    constructor (limits: Limits)
      requires limits.Ok()
      ensures Valid() && this.limits == limits && View() == INITIAL
    {
      this.limits := limits;
      flows, keysBySource, sourceStats := map[], map[], map[];
      flowCursor, sourceCursor := 0, 0;
      tracks := map[];
    }

    method UpdateSourceStats(packet: Packet, now: Time) returns (stats: Option<SourceStats>)
      modifies `sourceStats
      ensures (sourceStats, stats) == UpdateSource(old(sourceStats), limits, packet, now)
    {
      var srcIp := packet.tuple.srcIp;
      if srcIp !in sourceStats {
        if |sourceStats| >= limits.maxSources {
          return None;
        }
        sourceStats := sourceStats[srcIp := SourceStats({}, 0, now)];
      } else if now - sourceStats[srcIp].windowStart >= limits.Window() {
        sourceStats := sourceStats[srcIp := SourceStats({}, 0, now)];
      }
      var s := sourceStats[srcIp];
      s := s.(ports := s.ports + {packet.tuple.dstPort});
      if Syn(packet.tcpFlags) {
        s := s.(synCount := s.synCount + 1);
      }
      sourceStats := sourceStats[srcIp := s];
      assert sourceStats == old(sourceStats)[srcIp := s];
      stats := Some(s);
    }

    method CreateFlow(packet: Packet, direction: Direction, now: Time) returns (hit: Option<Hit>)
      requires Stored() && packet.tuple !in flows
      modifies `flows, `keysBySource, `tracks
      ensures Stored()
      ensures tracks == old(tracks)[packet.tuple := Track(OriginOf(direction), [Seen(packet, true, now)])]
      ensures hit == Some(Hit(packet.tuple, true)) && packet.tuple in flows
      ensures flows[packet.tuple].origin == OriginOf(direction)
    {
      hide Record, StandsFor, Indexed, Advance;
      var key := packet.tuple;
      var origin := if direction == Outbound then LocalInitiated else RemoteInitiated;
      ghost var s := Seen(packet, true, now);
      CreateStandsFor(flows, tracks, key, origin, s);
      IndexInsert(keysBySource, flows.Keys, key);
      flows := flows[key := Advance(NewFlow(key, origin, now), packet, true, now)];
      keysBySource := keysBySource[key.srcIp := (if key.srcIp in keysBySource then keysBySource[key.srcIp] else {}) + {key}];
      tracks := tracks[key := Track(origin, [s])];
      assert flows.Keys == old(flows).Keys + {key};
      StoredRecord(flows, tracks, key);
      hit := Some(Hit(key, true));
    }

    method UpdateFlow(packet: Packet, direction: Direction, now: Time) returns (hit: Option<Hit>)
      requires Stored()
      modifies `flows, `keysBySource, `tracks
      ensures Stored()
      ensures (tracks, hit) == FlowTable.UpdateFlow(old(tracks), limits, packet, direction, now)
      ensures hit.Some? ==> hit.value.key in flows && hit.value.key in tracks
      ensures hit.Some? ==> flows[hit.value.key].origin == tracks[hit.value.key].origin
    {
      hide Record, StandsFor, Indexed, Advance;
      StoredKeys(flows, tracks);
      var key, isForward := packet.tuple, true;
      if key !in flows {
        if key.Reversed() in flows {
          key, isForward := key.Reversed(), false;
        } else if |flows| < limits.maxFlows {
          hit := CreateFlow(packet, direction, now);
          return;
        } else {
          return None;
        }
      }
      ghost var s := Seen(packet, isForward, now);
      ExtendStandsFor(flows, tracks, key, s);
      flows := flows[key := Advance(flows[key], packet, isForward, now)];
      tracks := tracks[key := tracks[key].(seen := tracks[key].seen + [s])];
      assert flows.Keys == old(flows).Keys;
      StoredRecord(flows, tracks, key);
      hit := Some(Hit(key, isForward));
    }

    method ObservePacket(packet: Packet, direction: Direction, now: Time) returns (stats: Option<SourceStats>)
      requires Valid()
      modifies this
      ensures Valid() && (View(), stats) == Observe(old(View()), limits, packet, direction, now)
    {
      hide Record, Inv, StandsFor, Indexed, FlowTable.UpdateFlow, UpdateSource;
      ApplyKeepsInv(View(), limits, ObserveOp(packet, direction, now));
      if direction == UnknownDirection {
        return None;
      }
      var hit := UpdateFlow(packet, direction, now);
      if hit == None {
        if direction == Inbound {
          stats := UpdateSourceStats(packet, now);
          return;
        }
        return None;
      }
      if direction != Inbound || !hit.value.isForward || flows[hit.value.key].origin != RemoteInitiated {
        return None;
      }
      stats := UpdateSourceStats(packet, now);
    }

    method GetFlow(key: FiveTuple) returns (flow: Option<Flow>)
      requires Valid()
      ensures flow.Some? <==> Find(tracks, key).Some?
      ensures flow.Some? ==> flow.value == FlowOf(View(), Find(tracks, key).value)
    {
      if key in flows {
        StoredRecord(flows, tracks, key);
        return Some(flows[key]);
      }
      if key.Reversed() in flows {
        StoredRecord(flows, tracks, key.Reversed());
        return Some(flows[key.Reversed()]);
      }
      return None;
    }

    method UnindexFlow(key: FiveTuple)
      requires Indexed(keysBySource, flows.Keys)
      modifies `keysBySource
      ensures Indexed(keysBySource, flows.Keys - {key})
    {
      if key.srcIp !in keysBySource {
        assert key !in flows.Keys && flows.Keys - {key} == flows.Keys;
        return;
      }
      IndexErase(keysBySource, flows.Keys, key);
      var group := keysBySource[key.srcIp] - {key};
      if group == {} {
        keysBySource := keysBySource - {key.srcIp};
      } else {
        keysBySource := keysBySource[key.srcIp := group];
      }
    }

    // Unindexes a stored key and erases its flow.
    method EraseFlow(key: FiveTuple)
      requires Stored() && key in flows
      modifies `flows, `keysBySource, `tracks
      ensures Stored() && tracks == old(tracks) - {key}
    {
      EraseStandsFor(flows, tracks, {key});
      UnindexFlow(key);
      flows := flows - {key};
      tracks := tracks - {key};
      assert flows.Keys == old(flows).Keys - {key};
    }

    method ExtractCompleted(key: FiveTuple) returns (ended: Option<EndedFlow>)
      requires Valid()
      modifies this
      ensures Valid() && (View(), ended) == FlowTable.ExtractCompleted(old(View()), key)
    {
      hide Record, Inv, StandsFor, Indexed;
      ApplyKeepsInv(View(), limits, ExtractOp(key));
      StoredKeys(flows, tracks);
      var k := key;
      if k !in flows {
        k := key.Reversed();
      }
      if k !in flows {
        return None;
      }
      StoredRecord(flows, tracks, k);
      var flow := flows[k];
      var reason;
      if flow.forward.rst > 0 || flow.backward.rst > 0 {
        reason := TcpReset;
      } else if flow.finHandshakeComplete {
        reason := TcpFin;
      } else {
        return None;
      }
      EraseFlow(k);
      ended := Some(EndedFlow(flow, reason));
    }

    method EraseKeys(keys: set<FiveTuple>)
      modifies `flows
      ensures flows == old(flows) - keys
    {
      var todo := keys;
      while todo != {}
        invariant todo <= keys
        invariant flows == old(flows) - (keys - todo)
        decreases todo
      {
        var k :| k in todo;
        flows := flows - {k};
        todo := todo - {k};
      }
    }

    method DiscardSourceFlows(srcIp: Ip)
      requires Valid()
      modifies this
      ensures Valid() && View() == DiscardSource(old(View()), srcIp)
    {
      hide Record, Inv, StandsFor, Indexed, Sound, DiscardSource;
      ApplyKeepsInv(View(), limits, DiscardOp(srcIp));
      DiscardByIndex(View(), flows, keysBySource, srcIp);
      if srcIp !in keysBySource {
        return;
      }
      EraseKeys(keysBySource[srcIp]);
      tracks := tracks - keysBySource[srcIp];
      keysBySource := keysBySource - {srcIp};
    }

    // Second half of the flow sweep: unindexes, returns and erases each key.
    method EraseDoomed(doomed: seq<FiveTuple>) returns (ended: seq<EndedFlow>)
      requires Stored()
      requires forall k | k in doomed :: k in tracks
      requires forall i, j | 0 <= i < j < |doomed| :: doomed[i] != doomed[j]
      modifies `flows, `keysBySource, `tracks
      ensures Stored()
      ensures tracks == old(tracks) - set k | k in doomed
      ensures ReturnedFor(ended, old(tracks), doomed)
    {
      hide Record, StandsFor, Indexed;
      ended := [];
      ghost var gone: set<FiveTuple> := {};
      for i := 0 to |doomed|
        invariant Stored()
        invariant tracks == old(tracks) - gone
        invariant forall k :: k in gone <==> k in doomed[..i]
        invariant ReturnedFor(ended, old(tracks), doomed[..i])
      {
        var key := doomed[i];
        assert key in doomed && key !in doomed[..i];
        assert doomed[..i + 1] == doomed[..i] + [key];
        StoredRecord(flows, tracks, key);
        var flow := flows[key];
        EraseFlow(key);
        gone := gone + {key};
        ended := ended + [EndedFlow(flow, Timeout)];
      }
      assert doomed[..|doomed|] == doomed;
      assert gone == set k | k in doomed;
    }

    method SweepFlows(now: Time) returns (ended: seq<EndedFlow>)
      requires Valid()
      modifies `flows, `keysBySource, `tracks, `flowCursor
      ensures Stored()
      ensures tracks == SweepTracks(old(tracks), old(flowCursor), limits, now)
      ensures flowCursor == Sweep.NextCursor(old(flowCursor), limits.flowBuckets)
      ensures ListsSwept(ended, old(View()), limits, now)
    {
      assert limits.Ok();
      hide Record, Inv, StandsFor, Indexed, Sound;
      var timeout := FLOW_TIMEOUT_SEC * NS_PER_SECOND;
      var lim := limits;
      var doomed, next := CollectDoomed(flows, flowCursor, limits.flowBuckets,
                                        k => FlowHash(k) % lim.flowBuckets,
                                        (f: Flow) => now - f.lastSeen >= timeout);
      flowCursor := next;
      DoomedAreSwept(flows, tracks, old(flowCursor), limits, now, doomed);
      ended := EraseDoomed(doomed);
      ListsDoomed(ended, old(View()), limits, now, doomed);
    }

    method EraseSources(doomed: seq<Ip>)
      modifies `sourceStats
      ensures sourceStats == old(sourceStats) - set ip | ip in doomed
    {
      ghost var gone: set<Ip> := {};
      for i := 0 to |doomed|
        invariant sourceStats == old(sourceStats) - gone
        invariant forall ip :: ip in gone <==> ip in doomed[..i]
      {
        sourceStats := sourceStats - {doomed[i]};
        gone := gone + {doomed[i]};
        assert doomed[..i + 1] == doomed[..i] + [doomed[i]];
      }
      assert doomed[..|doomed|] == doomed;
      assert gone == set ip | ip in doomed;
    }

    method SweepSources(now: Time)
      requires limits.Ok()
      modifies `sourceStats, `sourceCursor
      ensures sourceStats == SweepWindows(old(sourceStats), old(sourceCursor), limits, now)
      ensures sourceCursor == Sweep.NextCursor(old(sourceCursor), limits.sourceBuckets)
    {
      var lim := limits;
      var doomed, next := CollectDoomed(sourceStats, sourceCursor, limits.sourceBuckets,
                                        ip => ip % lim.sourceBuckets,
                                        (s: SourceStats) => now - s.windowStart >= lim.Window());
      sourceCursor := next;
      EraseSources(doomed);
      assert forall ip :: ip in doomed <==> SweepsWindow(old(sourceStats), old(sourceCursor), lim, now, ip);
      assert sourceStats == SweepWindows(old(sourceStats), old(sourceCursor), limits, now);
    }

    method CleanupExpired(now: Time) returns (ended: seq<EndedFlow>)
      requires Valid()
      modifies this
      ensures Valid() && View() == Tick(old(View()), limits, now)
      ensures ListsSwept(ended, old(View()), limits, now)
    {
      assert limits.Ok();
      hide Record, Inv, StandsFor, Indexed, Sound, SweepTracks, SweepWindows, ListsSwept;
      ApplyKeepsInv(View(), limits, TickOp(now));
      ended := SweepFlows(now);
      SweepSources(now);
    }
  }
}
