/** The verdict pipeline as a state machine: flow table, block list and the log
    of what was counted, blocked and submitted. */
module Pipeline {
  import opened Common
  import opened FlowModel
  import opened FlowTable
  import opened Blocking
  import opened SlidingWindow
  import Detection

  datatype Config = Config(ttlSeconds: int, whitelist: set<Ip>, limits: Limits, portThreshold: nat, synThreshold: nat) {
    // What configuration loading has checked.
    predicate Ok() {
      limits.Ok() && limits.windowSeconds > 0 && ttlSeconds > 0 && portThreshold > 0 && synThreshold > 0
    }
  }

  // A flow handed to the AI client, numbered in order of submission.
  datatype FlowRecord = FlowRecord(id: nat, flow: Flow, reason: EndReason)

  // A block that was made, and when.
  datatype Made = Made(ip: Ip, at: Time)

  datatype Sensor = Sensor(
    table: Table, blocks: Blocks, submitted: seq<FlowRecord>,
    ruleBlocks: nat, aiBlocks: nat, aiDuplicates: nat, aiWhitelisted: nat,
    counted: seq<Counted>, made: seq<Made>)

  const STARTED := Sensor(FlowTable.INITIAL, NONE_BLOCKED, [], 0, 0, 0, 0, [], [])

  predicate RuleHit(cfg: Config, stats: SourceStats) {
    Detection.PortScan(cfg.portThreshold).IsMatch(stats) || Detection.SynFlood(cfg.synThreshold).IsMatch(stats)
  }

  // Only a finished remote flow of at least two packets is worth a verdict of
  // the model.
  predicate Submittable(flow: Flow) {
    flow.origin.RemoteInitiated? && flow.forward.payloadLen.count + flow.backward.payloadLen.count > 1
  }

  function Submit(submitted: seq<FlowRecord>, ended: EndedFlow): (r: seq<FlowRecord>) {
    if Submittable(ended.flow) then submitted + [FlowRecord(|submitted| + 1, ended.flow, ended.reason)] else submitted
  }

  function SubmitAll(submitted: seq<FlowRecord>, ended: seq<EndedFlow>): (r: seq<FlowRecord>) {
    if ended == [] then submitted else Submit(SubmitAll(submitted, ended[..|ended| - 1]), ended[|ended| - 1])
  }

  function BlockSource(s: Sensor, cfg: Config, ip: Ip, now: Time): (r: Sensor) {
    s.(table := DiscardSource(s.table, ip), blocks := Block(s.blocks, ip, cfg.ttlSeconds, now),
       made := s.made + [Made(ip, now)])
  }

  function CompleteFlow(s: Sensor, key: FiveTuple): (r: Sensor)
    requires Sound(s.table)
  {
    var (table, ended) := ExtractCompleted(s.table, key);
    s.(table := table, submitted := if ended.Some? then Submit(s.submitted, ended.value) else s.submitted)
  }

  // The state after observing an inbound packet, with the count logged.
  function CountInbound(s: Sensor, cfg: Config, p: Packet, now: Time): (r: Sensor) {
    var (table, stats) := Observe(s.table, cfg.limits, p, Inbound, now);
    s.(table := table,
       counted := if stats.None? then s.counted
                  else s.counted + [Counted(p.tuple.srcIp, now, Syn(p.tcpFlags), p.tuple.dstPort,
                                            stats.value.windowStart, !RuleHit(cfg, stats.value))])
  }

  predicate InboundHit(s: Sensor, cfg: Config, p: Packet, now: Time) {
    var stats := Observe(s.table, cfg.limits, p, Inbound, now).1;
    stats.Some? && RuleHit(cfg, stats.value)
  }

  lemma ObserveSound(s: Sensor, cfg: Config, p: Packet, dir: Direction, now: Time)
    requires Inv(s.table, cfg.limits)
    ensures Inv(Observe(s.table, cfg.limits, p, dir, now).0, cfg.limits)
  {
    ObserveKeepsInv(s.table, cfg.limits, p, dir, now);
  }

  // The new state and whether the packet is accepted.
  function HandleInbound(s: Sensor, cfg: Config, p: Packet, now: Time): (r: (Sensor, bool))
    requires Inv(s.table, cfg.limits)
  {
    var ip := p.tuple.srcIp;
    if ip in cfg.whitelist then (s, true)
    else if IsBlocked(s.blocks, ip, now) then (s, false)
    else if !p.hasPorts then (s, true)
    else
      var observed := CountInbound(s, cfg, p, now);
      if InboundHit(s, cfg, p, now) then
        (BlockSource(observed, cfg, ip, now).(ruleBlocks := s.ruleBlocks + 1), false)
      else
        ObserveSound(s, cfg, p, Inbound, now);
        (CompleteFlow(observed, p.tuple), true)
  }

  function HandleOutbound(s: Sensor, cfg: Config, p: Packet, now: Time): (r: (Sensor, bool))
    requires Inv(s.table, cfg.limits)
  {
    var ip := p.tuple.dstIp;
    if ip in cfg.whitelist || IsBlocked(s.blocks, ip, now) || !p.hasPorts then (s, true)
    else
      ObserveSound(s, cfg, p, Outbound, now);
      (CompleteFlow(s.(table := Observe(s.table, cfg.limits, p, Outbound, now).0), p.tuple), true)
  }

  // An answer of the model about one submitted flow's source.
  datatype Decision = Decision(ip: Ip, anomaly: bool)

  function ApplyDecision(s: Sensor, cfg: Config, d: Decision, now: Time): (r: Sensor) {
    if !d.anomaly then s
    else if d.ip in cfg.whitelist then s.(aiWhitelisted := s.aiWhitelisted + 1)
    else if IsBlocked(s.blocks, d.ip, now) then s.(aiDuplicates := s.aiDuplicates + 1)
    else BlockSource(s, cfg, d.ip, now).(aiBlocks := s.aiBlocks + 1)
  }

  function ApplyDecisions(s: Sensor, cfg: Config, ds: seq<Decision>, now: Time): (r: Sensor) {
    if ds == [] then s
    else ApplyDecision(ApplyDecisions(s, cfg, ds[..|ds| - 1], now), cfg, ds[|ds| - 1], now)
  }

  // A tick: decisions, then the flow sweep, then the block cleanup.
  ghost predicate OnTick(s: Sensor, cfg: Config, ds: seq<Decision>, now: Time, s': Sensor)
    requires cfg.limits.Ok()
  {
    var decided := ApplyDecisions(s, cfg, ds, now);
    && Sound(decided.table)
    && (exists ended ::
          && ListsSwept(ended, decided.table, cfg.limits, now)
          && s'.submitted == SubmitAll(decided.submitted, ended))
    && Cleanup(decided.blocks, s'.blocks, now)
    && s' == decided.(table := Tick(decided.table, cfg.limits, now), submitted := s'.submitted, blocks := s'.blocks)
  }

  datatype Event =
    | InboundEvent(p: Packet, now: Time)
    | OutboundEvent(p: Packet, now: Time)
    | TickEvent(ds: seq<Decision>, now: Time)

  // A step is only defined on a table that meets its invariant; that every table
  // of a run does is proved, not assumed.
  ghost predicate Step(s: Sensor, cfg: Config, e: Event, s': Sensor) {
    Inv(s.table, cfg.limits) ==>
      match e
      case InboundEvent(p, now) => s' == HandleInbound(s, cfg, p, now).0
      case OutboundEvent(p, now) => s' == HandleOutbound(s, cfg, p, now).0
      case TickEvent(ds, now) => OnTick(s, cfg, ds, now, s')
  }

  predicate OriginClean(origin: Origin, blocks: Blocks, cfg: Config, now: Time, k: FiveTuple) {
    origin.RemoteInitiated? ==> k.srcIp !in cfg.whitelist && !IsBlocked(blocks, k.srcIp, now)
  }

  // No live remote flow comes from a whitelisted or blocked source, and no live
  // flow is over.
  ghost predicate CleanAt(tracks: map<FiveTuple, Track>, blocks: Blocks, cfg: Config, now: Time, k: FiveTuple) {
    k in tracks && !Terminal(tracks[k].seen) && OriginClean(tracks[k].origin, blocks, cfg, now, k)
  }

  ghost predicate Clean(tracks: map<FiveTuple, Track>, blocks: Blocks, cfg: Config, now: Time) {
    forall k {:trigger CleanAt(tracks, blocks, cfg, now, k)} | k in tracks :: CleanAt(tracks, blocks, cfg, now, k)
  }

  // The listed expiry of ip stems from a block that was made.
  ghost predicate MadeFor(blocks: Blocks, made: seq<Made>, cfg: Config, ip: Ip)
    requires ip in blocks.until
  {
    exists m | m in made :: m.ip == ip && blocks.until[ip] == Expiry(cfg.ttlSeconds, m.at)
  }

  // The blocks that were made never overlap for one address, spare the
  // whitelist, and the unexpired ones are what the block list holds.
  ghost predicate BlocksTrue(blocks: Blocks, made: seq<Made>, cfg: Config, now: Time) {
    && InStep(blocks, now)
    && (forall m | m in made ::
          && m.at <= now && m.ip !in cfg.whitelist
          && (now < Expiry(cfg.ttlSeconds, m.at) ==>
                m.ip in blocks.until && blocks.until[m.ip] == Expiry(cfg.ttlSeconds, m.at)))
    && (forall ip | ip in blocks.until :: MadeFor(blocks, made, cfg, ip))
    && (forall i, j | 0 <= i < j < |made| && made[i].ip == made[j].ip :: Expiry(cfg.ttlSeconds, made[i].at) <= made[j].at)
  }

  ghost predicate WindowsTrue(counted: seq<Counted>, sources: map<Ip, SourceStats>, cfg: Config, now: Time) {
    Windowed(counted, sources, cfg.limits.Window(), cfg.synThreshold, cfg.portThreshold, now)
  }

  // The pipeline invariant, at an instant no earlier than the last event.
  ghost predicate SensorInv(s: Sensor, cfg: Config, now: Time) {
    && Inv(s.table, cfg.limits)
    && Clean(s.table.tracks, s.blocks, cfg, now)
    && BlocksTrue(s.blocks, s.made, cfg, now)
    && WindowsTrue(s.counted, s.table.sources, cfg, now)
  }

  lemma LaterIsSafe(s: Sensor, cfg: Config, now: Time, later: Time)
    requires SensorInv(s, cfg, now) && now <= later
    ensures SensorInv(s, cfg, later)
  {
    TimeKeepsWindowed(s.counted, s.table.sources, cfg.limits.Window(), cfg.synThreshold, cfg.portThreshold, now, later);
    hide Inv, Windowed, Terminal;
    forall k | k in s.table.tracks ensures CleanAt(s.table.tracks, s.blocks, cfg, later, k) {
      assert CleanAt(s.table.tracks, s.blocks, cfg, now, k);
    }
  }

  lemma StartIsSafe(cfg: Config, now: Time)
    requires cfg.Ok()
    ensures SensorInv(STARTED, cfg, now)
  {
    forall ip, start ensures Syns([], ip, start) == 0 && Ports([], ip, start) == {} {
    }
  }

  lemma MadeForBlocked(blocks: Blocks, made: seq<Made>, cfg: Config, ip: Ip, now: Time, i: Ip)
    requires i != ip ==> i in blocks.until && MadeFor(blocks, made, cfg, i)
    ensures MadeFor(Block(blocks, ip, cfg.ttlSeconds, now), made + [Made(ip, now)], cfg, i)
  {
    var made' := made + [Made(ip, now)];
    if i == ip {
      assert Made(ip, now) in made';
    } else {
      var m :| m in made && m.ip == i && blocks.until[i] == Expiry(cfg.ttlSeconds, m.at);
      assert m in made';
    }
  }

  // Blocking an address that is neither blocked nor whitelisted.
  lemma BlockKeepsBlocksTrue(blocks: Blocks, made: seq<Made>, cfg: Config, ip: Ip, now: Time)
    requires cfg.Ok() && BlocksTrue(blocks, made, cfg, now) && ip !in cfg.whitelist && !IsBlocked(blocks, ip, now)
    ensures BlocksTrue(Block(blocks, ip, cfg.ttlSeconds, now), made + [Made(ip, now)], cfg, now)
  {
    hide InStep, MadeFor;
    var blocks', made' := Block(blocks, ip, cfg.ttlSeconds, now), made + [Made(ip, now)];
    BlockKeepsInStep(blocks, ip, cfg.ttlSeconds, now);
    forall i | i in blocks'.until ensures MadeFor(blocks', made', cfg, i) {
      MadeForBlocked(blocks, made, cfg, ip, now, i);
    }
    forall i | 0 <= i < |made| && made[i].ip == ip ensures Expiry(cfg.ttlSeconds, made[i].at) <= now {
      assert made[i] in made;
    }
  }

  lemma DiscardKeepsClean(t: Table, blocks: Blocks, cfg: Config, ip: Ip, now: Time)
    requires forall k | k in t.tracks && k.srcIp != ip :: CleanAt(t.tracks, blocks, cfg, now, k)
    ensures Clean(DiscardSource(t, ip).tracks, Block(blocks, ip, cfg.ttlSeconds, now), cfg, now)
  {
    hide Terminal;
    var tracks', blocks' := DiscardSource(t, ip).tracks, Block(blocks, ip, cfg.ttlSeconds, now);
    forall k | k in tracks' ensures CleanAt(tracks', blocks', cfg, now, k) {
      assert CleanAt(t.tracks, blocks, cfg, now, k);
    }
  }

  // What observing a packet does to a clean table: only the flow it is counted
  // in can be over, and remote flows still come from unlisted sources.
  lemma ObserveKeepsClean(t: Table, blocks: Blocks, cfg: Config, p: Packet, dir: Direction, now: Time, k: FiveTuple)
    requires Inv(t, cfg.limits) && Clean(t.tracks, blocks, cfg, now)
    requires dir.Inbound? ==> p.tuple.srcIp !in cfg.whitelist && !IsBlocked(blocks, p.tuple.srcIp, now)
    requires k in Observe(t, cfg.limits, p, dir, now).0.tracks
    ensures var tracks := Observe(t, cfg.limits, p, dir, now).0.tracks;
            && OriginClean(tracks[k].origin, blocks, cfg, now, k)
            && (Find(tracks, p.tuple) != Some(k) ==> CleanAt(tracks, blocks, cfg, now, k))
  {
    hide Terminal, SoundTrack, UpdateSource, Sound;
    ReversedTwice(p.tuple);
    if k in t.tracks {
      assert CleanAt(t.tracks, blocks, cfg, now, k);
    }
  }

  // Taking a finished flow out leaves no flow that is over.
  lemma CompleteKeepsClean(s: Sensor, cfg: Config, key: FiveTuple, now: Time)
    requires Inv(s.table, cfg.limits)
    requires forall k | k in s.table.tracks ::
               && OriginClean(s.table.tracks[k].origin, s.blocks, cfg, now, k)
               && (Find(s.table.tracks, key) != Some(k) ==> CleanAt(s.table.tracks, s.blocks, cfg, now, k))
    ensures Clean(CompleteFlow(s, key).table.tracks, s.blocks, cfg, now)
  {
    hide SoundTrack, Record, Submittable, SawReset, HandshakeComplete, Sound;
    var tracks' := CompleteFlow(s, key).table.tracks;
    forall k | k in tracks' ensures CleanAt(tracks', s.blocks, cfg, now, k) {
      if Find(s.table.tracks, key) != Some(k) {
        assert CleanAt(s.table.tracks, s.blocks, cfg, now, k);
      }
    }
  }

  lemma CompleteKeepsRest(s: Sensor, cfg: Config, key: FiveTuple)
    requires Inv(s.table, cfg.limits)
    ensures var s' := CompleteFlow(s, key);
            && Inv(s'.table, cfg.limits)
            && s' == s.(table := s.table.(tracks := s'.table.tracks), submitted := s'.submitted)
  {
    ApplyKeepsInv(s.table, cfg.limits, ExtractOp(key));
    hide Record, Submittable, SawReset, HandshakeComplete, Inv;
  }

  lemma ObserveSources(t: Table, lim: Limits, p: Packet, dir: Direction, now: Time)
    ensures var (t', stats) := Observe(t, lim, p, dir, now);
            if stats.Some? then dir.Inbound? && (t'.sources, stats) == UpdateSource(t.sources, lim, p, now)
            else t'.sources == t.sources
  {
    hide FlowTable.UpdateFlow;
  }

  lemma CountKeepsWindows(s: Sensor, cfg: Config, p: Packet, now: Time)
    requires cfg.Ok() && WindowsTrue(s.counted, s.table.sources, cfg, now)
    ensures var s' := CountInbound(s, cfg, p, now);
            WindowsTrue(s'.counted, s'.table.sources, cfg, now)
  {
    var stats := Observe(s.table, cfg.limits, p, Inbound, now).1;
    ObserveSources(s.table, cfg.limits, p, Inbound, now);
    hide Observe, Windowed;
    if stats.Some? {
      CountKeepsWindowed(s.counted, s.table.sources, cfg.limits, cfg.synThreshold, cfg.portThreshold, p, now,
                         !RuleHit(cfg, stats.value));
    }
  }

  /** A counted packet meets a rule exactly when, with it, the SYNs or the distinct
      ports counted in its source's window reach a threshold. */
  lemma RuleHitIffReached(s: Sensor, cfg: Config, p: Packet, now: Time)
    requires cfg.Ok() && SensorInv(s, cfg, now)
    requires Observe(s.table, cfg.limits, p, Inbound, now).1.Some?
    ensures var log := CountInbound(s, cfg, p, now).counted;
            && log != [] && log[|log| - 1].ip == p.tuple.srcIp && log[|log| - 1].at == now
            && (InboundHit(s, cfg, p, now) <==>
                  || SynsCounted(log, p.tuple.srcIp, log[|log| - 1].start) >= cfg.synThreshold
                  || |PortsCounted(log, p.tuple.srcIp, log[|log| - 1].start)| >= cfg.portThreshold)
  {
    hide Inv, Clean, BlocksTrue, Tumbling, Limited, SynsCounted, PortsCounted;
    CountKeepsWindows(s, cfg, p, now);
    ObserveSources(s.table, cfg.limits, p, Inbound, now);
    hide Observe;
  }

  // A packet that meets a rule was counted in no flow but one of its source.
  lemma HitTouchesOwnFlow(t: Table, lim: Limits, p: Packet, now: Time, k: FiveTuple)
    requires Inv(t, lim) && Observe(t, lim, p, Inbound, now).1.Some?
    requires Find(Observe(t, lim, p, Inbound, now).0.tracks, p.tuple) == Some(k)
    ensures k.srcIp == p.tuple.srcIp
  {
    hide SoundTrack, UpdateSource, Sound;
    ReversedTwice(p.tuple);
  }

  lemma HitKeepsInv(s: Sensor, cfg: Config, p: Packet, now: Time)
    requires cfg.Ok() && SensorInv(s, cfg, now) && InboundHit(s, cfg, p, now)
    requires p.tuple.srcIp !in cfg.whitelist && !IsBlocked(s.blocks, p.tuple.srcIp, now)
    ensures SensorInv(BlockSource(CountInbound(s, cfg, p, now), cfg, p.tuple.srcIp, now), cfg, now)
  {
    var ip, t' := p.tuple.srcIp, Observe(s.table, cfg.limits, p, Inbound, now).0;
    CountKeepsWindows(s, cfg, p, now);
    ObserveSound(s, cfg, p, Inbound, now);
    ApplyKeepsInv(t', cfg.limits, DiscardOp(ip));
    BlockKeepsBlocksTrue(s.blocks, s.made, cfg, ip, now);
    hide Inv, Windowed, BlocksTrue, Terminal;
    forall k | k in t'.tracks && k.srcIp != ip ensures CleanAt(t'.tracks, s.blocks, cfg, now, k) {
      ObserveKeepsClean(s.table, s.blocks, cfg, p, Inbound, now, k);
      if Find(t'.tracks, p.tuple) == Some(k) {
        HitTouchesOwnFlow(s.table, cfg.limits, p, now, k);
      }
    }
    hide Observe;
    DiscardKeepsClean(t', s.blocks, cfg, ip, now);
  }

  lemma InvSound(t: Table, lim: Limits)
    requires Inv(t, lim)
    ensures Sound(t)
  {
  }

  // An observed packet that is let through, with its flow completed if over.
  lemma ObservedCompletes(s: Sensor, s': Sensor, cfg: Config, p: Packet, dir: Direction, now: Time)
    requires SensorInv(s, cfg, now)
    requires dir.Inbound? ==> p.tuple.srcIp !in cfg.whitelist && !IsBlocked(s.blocks, p.tuple.srcIp, now)
    requires s'.table == Observe(s.table, cfg.limits, p, dir, now).0 && s'.blocks == s.blocks && s'.made == s.made
    requires WindowsTrue(s'.counted, s'.table.sources, cfg, now)
    ensures Inv(s'.table, cfg.limits) && SensorInv(CompleteFlow(s', p.tuple), cfg, now)
  {
    hide Inv, Windowed, BlocksTrue, Terminal, Observe, ExtractCompleted;
    ObserveSound(s, cfg, p, dir, now);
    forall k | k in s'.table.tracks
      ensures OriginClean(s'.table.tracks[k].origin, s'.blocks, cfg, now, k)
      ensures Find(s'.table.tracks, p.tuple) != Some(k) ==> CleanAt(s'.table.tracks, s'.blocks, cfg, now, k)
    {
      ObserveKeepsClean(s.table, s.blocks, cfg, p, dir, now, k);
    }
    CompleteKeepsClean(s', cfg, p.tuple, now);
    InvSound(s'.table, cfg.limits);
    CompleteKeepsRest(s', cfg, p.tuple);
    hide CompleteFlow;
  }

  lemma InboundKeepsInv(s: Sensor, cfg: Config, p: Packet, now: Time)
    requires cfg.Ok() && SensorInv(s, cfg, now)
    ensures SensorInv(HandleInbound(s, cfg, p, now).0, cfg, now)
  {
    hide Inv, Windowed, BlocksTrue, Terminal, Observe, ExtractCompleted, CompleteFlow, DiscardSource, RuleHit;
    var ip := p.tuple.srcIp;
    if ip !in cfg.whitelist && !IsBlocked(s.blocks, ip, now) && p.hasPorts {
      if InboundHit(s, cfg, p, now) {
        HitKeepsInv(s, cfg, p, now);
      } else {
        var observed := CountInbound(s, cfg, p, now);
        CountKeepsWindows(s, cfg, p, now);
        ObservedCompletes(s, observed, cfg, p, Inbound, now);
      }
    }
  }

  lemma OutboundKeepsInv(s: Sensor, cfg: Config, p: Packet, now: Time)
    requires SensorInv(s, cfg, now)
    ensures SensorInv(HandleOutbound(s, cfg, p, now).0, cfg, now)
  {
    hide Inv, Windowed, BlocksTrue, Terminal, Observe, ExtractCompleted, CompleteFlow, DiscardSource, RuleHit;
    var ip := p.tuple.dstIp;
    if !(ip in cfg.whitelist || IsBlocked(s.blocks, ip, now) || !p.hasPorts) {
      ObserveSources(s.table, cfg.limits, p, Outbound, now);
      ObservedCompletes(s, s.(table := Observe(s.table, cfg.limits, p, Outbound, now).0), cfg, p, Outbound, now);
    }
  }

  lemma SensorSound(s: Sensor, cfg: Config, now: Time)
    requires SensorInv(s, cfg, now)
    ensures Sound(s.table)
  {
  }

  lemma DecisionKeepsInv(s: Sensor, cfg: Config, d: Decision, now: Time)
    requires cfg.Ok() && SensorInv(s, cfg, now)
    ensures SensorInv(ApplyDecision(s, cfg, d, now), cfg, now)
  {
    if d.anomaly && d.ip !in cfg.whitelist && !IsBlocked(s.blocks, d.ip, now) {
      ApplyKeepsInv(s.table, cfg.limits, DiscardOp(d.ip));
      BlockKeepsBlocksTrue(s.blocks, s.made, cfg, d.ip, now);
      hide Inv, Windowed, BlocksTrue, Terminal;
      DiscardKeepsClean(s.table, s.blocks, cfg, d.ip, now);
    }
  }

  lemma {:induction false} DecisionsKeepInv(s: Sensor, cfg: Config, ds: seq<Decision>, now: Time)
    requires cfg.Ok() && SensorInv(s, cfg, now)
    ensures SensorInv(ApplyDecisions(s, cfg, ds, now), cfg, now)
  {
    hide SensorInv, ApplyDecision;
    if ds != [] {
      DecisionsKeepInv(s, cfg, ds[..|ds| - 1], now);
      DecisionKeepsInv(ApplyDecisions(s, cfg, ds[..|ds| - 1], now), cfg, ds[|ds| - 1], now);
    }
  }

  lemma CleanupShrinks(blocks: Blocks, blocks': Blocks, now: Time)
    requires Cleanup(blocks, blocks', now)
    ensures forall ip | ip in blocks'.until :: ip in blocks.until && blocks'.until[ip] == blocks.until[ip]
  {
  }

  lemma CleanupKeepsBlocksTrue(blocks: Blocks, blocks': Blocks, made: seq<Made>, cfg: Config, now: Time)
    requires BlocksTrue(blocks, made, cfg, now) && Cleanup(blocks, blocks', now)
    ensures BlocksTrue(blocks', made, cfg, now)
  {
    CleanupKeepsInStep(blocks, blocks', now);
    CleanupShrinks(blocks, blocks', now);
    hide Cleanup, InStep;
    forall m | m in made && now < Expiry(cfg.ttlSeconds, m.at)
      ensures m.ip in blocks'.until && blocks'.until[m.ip] == Expiry(cfg.ttlSeconds, m.at)
    {
      assert IsBlocked(blocks, m.ip, now) && IsBlocked(blocks', m.ip, now);
    }
  }

  lemma TickKeepsInv(s: Sensor, cfg: Config, ds: seq<Decision>, now: Time, s': Sensor)
    requires cfg.Ok() && SensorInv(s, cfg, now) && OnTick(s, cfg, ds, now, s')
    ensures SensorInv(s', cfg, now)
  {
    hide Windowed, Terminal, ListsSwept, Cleanup, InStep, ApplyDecisions;
    var decided := ApplyDecisions(s, cfg, ds, now);
    DecisionsKeepInv(s, cfg, ds, now);
    ApplyKeepsInv(decided.table, cfg.limits, TickOp(now));
    SweepKeepsWindowed(decided.counted, decided.table, cfg.limits, cfg.synThreshold, cfg.portThreshold, now);
    CleanupKeepsBlocksTrue(decided.blocks, s'.blocks, decided.made, cfg, now);
    CleanupKeepsInStep(decided.blocks, s'.blocks, now);
    hide Inv, BlocksTrue;
    forall k | k in s'.table.tracks ensures CleanAt(s'.table.tracks, s'.blocks, cfg, now, k) {
      assert CleanAt(decided.table.tracks, decided.blocks, cfg, now, k);
    }
  }

  ghost predicate IsRun(states: seq<Sensor>, events: seq<Event>, cfg: Config) {
    && |states| == |events| + 1 && states[0] == STARTED
    && (forall i | 0 <= i < |events| :: Step(states[i], cfg, events[i], states[i + 1]))
    && (forall i | 0 < i < |events| :: events[i - 1].now <= events[i].now)
  }

  lemma SensorTable(s: Sensor, cfg: Config, now: Time)
    requires SensorInv(s, cfg, now)
    ensures Inv(s.table, cfg.limits)
  {
  }

  lemma {:induction false} DecisionsKeepTable(s: Sensor, cfg: Config, ds: seq<Decision>, now: Time)
    requires Inv(s.table, cfg.limits)
    ensures Inv(ApplyDecisions(s, cfg, ds, now).table, cfg.limits)
  {
    hide Inv, Block, DiscardSource;
    if ds != [] {
      DecisionsKeepTable(s, cfg, ds[..|ds| - 1], now);
      var mid := ApplyDecisions(s, cfg, ds[..|ds| - 1], now);
      ApplyKeepsInv(mid.table, cfg.limits, DiscardOp(ds[|ds| - 1].ip));
    }
  }

  lemma PacketKeepsTable(s: Sensor, cfg: Config, p: Packet, now: Time)
    requires Inv(s.table, cfg.limits)
    ensures Inv(HandleInbound(s, cfg, p, now).0.table, cfg.limits)
    ensures Inv(HandleOutbound(s, cfg, p, now).0.table, cfg.limits)
  {
    hide Inv, Observe, Block, DiscardSource, CompleteFlow, RuleHit;
    ObserveSound(s, cfg, p, Inbound, now);
    ObserveSound(s, cfg, p, Outbound, now);
    var observed := CountInbound(s, cfg, p, now);
    ApplyKeepsInv(observed.table, cfg.limits, DiscardOp(p.tuple.srcIp));
    InvSound(observed.table, cfg.limits);
    CompleteKeepsRest(observed, cfg, p.tuple);
    var answered := s.(table := Observe(s.table, cfg.limits, p, Outbound, now).0);
    InvSound(answered.table, cfg.limits);
    CompleteKeepsRest(answered, cfg, p.tuple);
  }

  lemma StepKeepsTable(s: Sensor, cfg: Config, e: Event, s': Sensor)
    requires Inv(s.table, cfg.limits) && Step(s, cfg, e, s')
    ensures Inv(s'.table, cfg.limits)
  {
    hide Inv, HandleInbound, HandleOutbound, Cleanup, ListsSwept, ApplyDecisions;
    match e {
      case InboundEvent(p, now) => PacketKeepsTable(s, cfg, p, now);
      case OutboundEvent(p, now) => PacketKeepsTable(s, cfg, p, now);
      case TickEvent(ds, now) =>
        DecisionsKeepTable(s, cfg, ds, now);
        ApplyKeepsInv(ApplyDecisions(s, cfg, ds, now).table, cfg.limits, TickOp(now));
    }
  }

  /** Every table of a run meets its invariant, whatever the configuration's other
      values are. */
  lemma {:induction false} RunKeepsTable(states: seq<Sensor>, events: seq<Event>, cfg: Config, n: nat)
    requires cfg.limits.Ok() && IsRun(states, events, cfg) && n <= |events|
    ensures |states| == |events| + 1 && Inv(states[n].table, cfg.limits)
  {
    hide Step;
    if n > 0 {
      RunKeepsTable(states, events, cfg, n - 1);
      StepKeepsTable(states[n - 1], cfg, events[n - 1], states[n]);
    }
  }

  /** The invariant holds after every run, from its last event on. */
  lemma {:induction false} RunKeepsInv(states: seq<Sensor>, events: seq<Event>, cfg: Config, now: Time)
    requires cfg.Ok() && IsRun(states, events, cfg)
    requires events != [] ==> events[|events| - 1].now <= now
    ensures SensorInv(states[|events|], cfg, now)
  {
    hide SensorInv, HandleInbound, HandleOutbound, OnTick, Inv;
    if events == [] {
      StartIsSafe(cfg, now);
    } else {
      var n := |events| - 1;
      var e := events[n];
      RunKeepsInv(states[..n + 1], events[..n], cfg, e.now);
      assert Step(states[n], cfg, e, states[n + 1]);
      SensorTable(states[n], cfg, e.now);
      match e {
        case InboundEvent(p, t) => InboundKeepsInv(states[n], cfg, p, t);
        case OutboundEvent(p, t) => OutboundKeepsInv(states[n], cfg, p, t);
        case TickEvent(ds, t) => TickKeepsInv(states[n], cfg, ds, t, states[n + 1]);
      }
      LaterIsSafe(states[n + 1], cfg, e.now, now);
    }
  }

  /** Over any run, whatever is swept or blocked in between: at most
      2 (threshold - 1) counted SYNs, and as many distinct ports, of one source
      are let through in any interval of one window length. */
  lemma RunSlidingBound(states: seq<Sensor>, events: seq<Event>, cfg: Config, ip: Ip, a: Time)
    requires cfg.Ok() && IsRun(states, events, cfg)
    ensures var log := states[|events|].counted;
            && SynsIn(log, ip, a, cfg.limits.Window()) <= 2 * (cfg.synThreshold - 1)
            && |PortsIn(log, ip, a, cfg.limits.Window())| <= 2 * (cfg.portThreshold - 1)
  {
    RunKeepsInv(states, events, cfg, if events == [] then 0 else events[|events| - 1].now);
    SlidingBound(states[|events|].counted, cfg.limits.Window(), cfg.synThreshold, cfg.portThreshold, ip, a);
  }

  predicate Covers(m: Made, cfg: Config, ip: Ip, now: Time) {
    m.ip == ip && m.at <= now < Expiry(cfg.ttlSeconds, m.at)
  }

  /** A parsed inbound packet is dropped exactly when its source is inside the
      time-to-live of a block made by then, itself included. */
  lemma DroppedIffCovered(s: Sensor, cfg: Config, p: Packet, now: Time)
    requires cfg.Ok() && SensorInv(s, cfg, now)
    ensures var (s', accepted) := HandleInbound(s, cfg, p, now);
            !accepted <==> exists m | m in s'.made :: Covers(m, cfg, p.tuple.srcIp, now)
  {
    hide Inv, Windowed, InStep, Terminal, Observe, ExtractCompleted, DiscardSource, RuleHit, Submit;
    var (s', accepted) := HandleInbound(s, cfg, p, now);
    var ip := p.tuple.srcIp;
    if IsBlocked(s.blocks, ip, now) && ip !in cfg.whitelist {
      var m :| m in s.made && m.ip == ip && s.blocks.until[ip] == Expiry(cfg.ttlSeconds, m.at);
      assert m in s'.made && Covers(m, cfg, ip, now);
    } else if !accepted {
      assert Made(ip, now) in s'.made && Covers(Made(ip, now), cfg, ip, now);
    } else {
      forall m | m in s'.made ensures !Covers(m, cfg, ip, now) {
        assert s'.made == s.made;
      }
    }
  }

  lemma BlockedIsDropped(s: Sensor, cfg: Config, p: Packet, now: Time)
    requires Inv(s.table, cfg.limits)
    ensures p.tuple.srcIp !in cfg.whitelist && IsBlocked(s.blocks, p.tuple.srcIp, now) ==> !HandleInbound(s, cfg, p, now).1
  {
  }

  lemma OutboundAccepted(s: Sensor, cfg: Config, p: Packet, now: Time)
    requires Inv(s.table, cfg.limits)
    ensures HandleOutbound(s, cfg, p, now).1
  {
  }

  lemma RunPrefix(states: seq<Sensor>, events: seq<Event>, cfg: Config, i: nat)
    requires IsRun(states, events, cfg) && i <= |events|
    ensures IsRun(states[..i + 1], events[..i], cfg)
  {
    hide Inv, Step;
  }

  lemma MadeOnce(s: Sensor, cfg: Config, now: Time, m: Made)
    requires SensorInv(s, cfg, now) && m in s.made && now < Expiry(cfg.ttlSeconds, m.at)
    ensures m.ip !in cfg.whitelist && IsBlocked(s.blocks, m.ip, now)
  {
    hide Inv, Clean, WindowsTrue;
  }

  lemma NeverExtended(s: Sensor, cfg: Config, now: Time, m: Made)
    requires cfg.Ok() && SensorInv(s, cfg, now) && m in s.made
    ensures forall d | d in s.made && d.ip == m.ip && d.at > m.at :: Expiry(cfg.ttlSeconds, m.at) <= d.at
  {
    hide Inv, Clean, WindowsTrue, InStep;
    forall d | d in s.made && d.ip == m.ip && d.at > m.at ensures Expiry(cfg.ttlSeconds, m.at) <= d.at {
      var i :| 0 <= i < |s.made| && s.made[i] == m;
      var j :| 0 <= j < |s.made| && s.made[j] == d;
      var lo, hi := if j < i then j else i, if j < i then i else j;
      assert Expiry(cfg.ttlSeconds, s.made[lo].at) <= s.made[hi].at;
    }
  }

  lemma {:induction false} MadeGrowsByDecisions(s: Sensor, cfg: Config, ds: seq<Decision>, now: Time)
    ensures forall m | m in s.made :: m in ApplyDecisions(s, cfg, ds, now).made
  {
    hide DiscardSource;
    if ds != [] {
      MadeGrowsByDecisions(s, cfg, ds[..|ds| - 1], now);
    }
  }

  lemma MadeGrows(s: Sensor, cfg: Config, e: Event, s': Sensor)
    requires Inv(s.table, cfg.limits) && Step(s, cfg, e, s')
    ensures forall m | m in s.made :: m in s'.made
  {
    hide Inv, Observe, ExtractCompleted, DiscardSource, RuleHit, Submit, Cleanup, ListsSwept;
    if e.TickEvent? {
      MadeGrowsByDecisions(s, cfg, e.ds, e.now);
    }
  }

  /** A block made at any point of a run is never extended or replaced before it
      expires, never meets the whitelist, and until it expires every parsed
      inbound packet of its source is dropped; no outbound packet ever is. */
  lemma BlocksAreExact(states: seq<Sensor>, events: seq<Event>, cfg: Config, i: nat, m: Made)
    requires cfg.Ok() && IsRun(states, events, cfg)
    requires i < |events| && m in states[i].made && events[i].now < Expiry(cfg.ttlSeconds, m.at)
    ensures m.ip !in cfg.whitelist && Inv(states[i].table, cfg.limits)
    ensures events[i].InboundEvent? && events[i].p.tuple.srcIp == m.ip ==>
            !HandleInbound(states[i], cfg, events[i].p, events[i].now).1
    ensures events[i].OutboundEvent? ==> HandleOutbound(states[i], cfg, events[i].p, events[i].now).1
    ensures forall d | d in states[i + 1].made && d.ip == m.ip && d.at > m.at :: Expiry(cfg.ttlSeconds, m.at) <= d.at
  {
    hide HandleInbound, HandleOutbound, Step, Inv, SensorInv;
    RunKeepsTable(states, events, cfg, i);
    RunPrefix(states, events, cfg, i);
    RunKeepsInv(states[..i + 1], events[..i], cfg, events[i].now);
    RunPrefix(states, events, cfg, i + 1);
    RunKeepsInv(states[..i + 2], events[..i + 1], cfg, events[i].now);
    MadeOnce(states[i], cfg, events[i].now, m);
    match events[i] {
      case InboundEvent(p, now) => BlockedIsDropped(states[i], cfg, p, now);
      case OutboundEvent(p, now) => OutboundAccepted(states[i], cfg, p, now);
      case TickEvent(ds, now) =>
    }
    MadeGrows(states[i], cfg, events[i], states[i + 1]);
    NeverExtended(states[i + 1], cfg, events[i].now, m);
  }

  lemma RunLast(states: seq<Sensor>, events: seq<Event>, cfg: Config)
    requires cfg.limits.Ok() && IsRun(states, events, cfg) && events != []
    ensures |states| == |events| + 1
    ensures var n := |events| - 1; Inv(states[n].table, cfg.limits) && Step(states[n], cfg, events[n], states[n + 1])
  {
    hide Inv, Step;
    RunKeepsTable(states, events, cfg, |events| - 1);
  }

  /** Between events the unexpired heap entries are in bijection with the
      unexpired map entries, and no live flow is over or, if remote, listed. */
  lemma RunIsClean(states: seq<Sensor>, events: seq<Event>, cfg: Config, now: Time)
    requires cfg.Ok() && IsRun(states, events, cfg)
    requires events != [] ==> events[|events| - 1].now <= now
    ensures var s := states[|events|];
            && (forall e | e in s.blocks.heap && now < e.expiry ::
                  s.blocks.heap[e] == 1 && e.ip in s.blocks.until && s.blocks.until[e.ip] == e.expiry)
            && (forall ip | IsBlocked(s.blocks, ip, now) :: HeapEntry(s.blocks.until[ip], ip) in s.blocks.heap)
            && (forall k | k in s.table.tracks :: CleanAt(s.table.tracks, s.blocks, cfg, now, k))
  {
    RunKeepsInv(states, events, cfg, now);
    hide Inv, Windowed, Terminal;
  }

  // ---- counters ----

  function Anomalies(ds: seq<Decision>): (r: nat) {
    if ds == [] then 0 else Anomalies(ds[..|ds| - 1]) + (if ds[|ds| - 1].anomaly then 1 else 0)
  }

  function AllAnomalies(events: seq<Event>): (r: nat) {
    if events == [] then 0
    else
      var e := events[|events| - 1];
      AllAnomalies(events[..|events| - 1]) + (if e.TickEvent? then Anomalies(e.ds) else 0)
  }

  predicate Numbered(submitted: seq<FlowRecord>) {
    forall i | 0 <= i < |submitted| :: submitted[i].id == i + 1 && Submittable(submitted[i].flow)
  }

  // Every block has its counter, and records are numbered in order.
  predicate Tallied(s: Sensor, anomalies: nat) {
    && |s.made| == s.ruleBlocks + s.aiBlocks
    && s.aiBlocks + s.aiDuplicates + s.aiWhitelisted == anomalies
    && Numbered(s.submitted)
  }

  lemma {:induction false} DecisionsTally(s: Sensor, cfg: Config, ds: seq<Decision>, now: Time, anomalies: nat)
    requires Tallied(s, anomalies)
    ensures Tallied(ApplyDecisions(s, cfg, ds, now), anomalies + Anomalies(ds))
  {
    hide DiscardSource, Block, Numbered;
    if ds != [] {
      DecisionsTally(s, cfg, ds[..|ds| - 1], now, anomalies);
    }
  }

  lemma {:induction false} SubmitAllNumbers(submitted: seq<FlowRecord>, ended: seq<EndedFlow>)
    requires Numbered(submitted)
    ensures Numbered(SubmitAll(submitted, ended))
  {
    hide Submittable;
    if ended != [] {
      SubmitAllNumbers(submitted, ended[..|ended| - 1]);
    }
  }

  lemma StepTallies(s: Sensor, cfg: Config, e: Event, s': Sensor, anomalies: nat)
    requires cfg.Ok() && Inv(s.table, cfg.limits) && Step(s, cfg, e, s') && Tallied(s, anomalies)
    ensures Tallied(s', anomalies + (if e.TickEvent? then Anomalies(e.ds) else 0))
  {
    hide Inv, Observe, ExtractCompleted, DiscardSource, Block, RuleHit, Submittable, Cleanup, ListsSwept, Tick;
    if e.TickEvent? {
      DecisionsTally(s, cfg, e.ds, e.now, anomalies);
      var decided := ApplyDecisions(s, cfg, e.ds, e.now);
      var ended :| ListsSwept(ended, decided.table, cfg.limits, e.now) && s'.submitted == SubmitAll(decided.submitted, ended);
      SubmitAllNumbers(decided.submitted, ended);
    }
  }

  lemma RunStarts(states: seq<Sensor>, events: seq<Event>, cfg: Config)
    requires IsRun(states, events, cfg)
    ensures |states| == |events| + 1 && Tallied(states[0], 0)
  {
    hide Inv, Step;
  }

  /** Over any run: every block is counted once, as a rule's or the model's; every
      anomaly the model reported is counted once, as a block, a duplicate or a
      whitelisted source; and the flows submitted are remote ones of at least two
      packets, numbered 1, 2, 3, ... */
  lemma {:induction false} RunTallies(states: seq<Sensor>, events: seq<Event>, cfg: Config)
    requires cfg.Ok() && IsRun(states, events, cfg)
    ensures |states| == |events| + 1 && Tallied(states[|events|], AllAnomalies(events))
  {
    hide IsRun, Inv, Step, Tallied, Anomalies;
    RunStarts(states, events, cfg);
    if events != [] {
      var n := |events| - 1;
      RunPrefix(states, events, cfg, n);
      RunLast(states, events, cfg);
      RunTallies(states[..n + 1], events[..n], cfg);
      StepTallies(states[n], cfg, events[n], states[n + 1], AllAnomalies(events[..n]));
    }
  }
}
