/** The capture thread's object: it drives the flow manager, the rules and the
    block list, and follows the pipeline state machine step by step. */
module Capturing {
  import opened Common
  import opened FlowModel
  import opened FlowTable
  import opened Blocking
  import opened SlidingWindow
  import opened Pipeline
  import FlowManagement
  import Detection
  import PacketParser

  ghost predicate OriginsClean(tracks: map<FiveTuple, Track>, blocks: Blocks, cfg: Config, now: Time) {
    forall k | k in tracks :: OriginClean(tracks[k].origin, blocks, cfg, now, k)
  }

  lemma ObservedOrigins(s: Sensor, cfg: Config, p: Packet, dir: Direction, now: Time)
    requires SensorInv(s, cfg, now)
    requires dir.Inbound? ==> p.tuple.srcIp !in cfg.whitelist && !IsBlocked(s.blocks, p.tuple.srcIp, now)
    ensures OriginsClean(Observe(s.table, cfg.limits, p, dir, now).0.tracks, s.blocks, cfg, now)
  {
    hide OriginClean, Observe, Inv;
    forall k | k in Observe(s.table, cfg.limits, p, dir, now).0.tracks
      ensures OriginClean(Observe(s.table, cfg.limits, p, dir, now).0.tracks[k].origin, s.blocks, cfg, now, k)
    {
      ObserveKeepsClean(s.table, s.blocks, cfg, p, dir, now, k);
    }
  }

  lemma ExtractedOrigin(t: Table, blocks: Blocks, cfg: Config, now: Time, key: FiveTuple)
    requires Inv(t, cfg.limits) && OriginsClean(t.tracks, blocks, cfg, now)
    ensures Sound(t)
    ensures var ended := FlowTable.ExtractCompleted(t, key).1;
            ended.Some? ==> OriginClean(ended.value.flow.origin, blocks, cfg, now, ended.value.flow.key)
  {
    hide OriginClean, SawReset, HandshakeComplete, Summary;
  }

  lemma SweptOrigin(s: Sensor, cfg: Config, now: Time, ended: seq<EndedFlow>, i: nat, later: Time)
    requires SensorInv(s, cfg, now) && ListsSwept(ended, s.table, cfg.limits, now) && i < |ended| && now <= later
    ensures OriginClean(ended[i].flow.origin, s.blocks, cfg, later, ended[i].flow.key)
  {
    hide Terminal, SawReset, HandshakeComplete, Summary, BlocksTrue, WindowsTrue;
    var k := ended[i].flow.key;
    assert Swept(s.table, cfg.limits, now, k);
    assert CleanAt(s.table.tracks, s.blocks, cfg, now, k);
    assert ended[i].flow == FlowOf(s.table, k);
  }

  lemma FirstMatchIsHit(cfg: Config, stats: SourceStats, hit: Option<Detection.Rule>, rules: seq<Detection.Rule>)
    requires rules == [Detection.PortScan(cfg.portThreshold), Detection.SynFlood(cfg.synThreshold)]
    requires hit.None? <==> forall r | r in rules :: !r.IsMatch(stats)
    ensures hit.Some? <==> RuleHit(cfg, stats)
  {
    assert rules[0] in rules && rules[1] in rules;
  }

  class PacketCapture {
    const cfg: Config
    const flowManager: FlowManagement.FlowManager
    const blockList: Blocking.BlockList
    const ruleEngine: Detection.RuleEngine
    var submitted: seq<FlowRecord>
    var nextFlowSequence: nat
    var ruleBlocks: nat
    var aiBlocks: nat
    var aiDuplicates: nat
    var aiWhitelisted: nat
    // The steady clock's last reading.
    var clock: Time
    ghost var counted: seq<Counted>
    ghost var made: seq<Made>

    ghost function View(): (r: Sensor)
      reads this, flowManager, blockList
    {
      Sensor(flowManager.View(), blockList.View(), submitted, ruleBlocks, aiBlocks, aiDuplicates, aiWhitelisted, counted, made)
    }

    // The parts fit together; the pipeline invariant is SensorInv.
    ghost predicate Wired()
      reads this, flowManager, blockList, ruleEngine
    {
      && cfg.Ok()
      && flowManager.Valid() && flowManager.limits == cfg.limits
      && blockList.Valid()
      && ruleEngine.rules == [Detection.PortScan(cfg.portThreshold), Detection.SynFlood(cfg.synThreshold)]
      && nextFlowSequence == |submitted| + 1
    }

    ghost predicate Valid()
      reads this, flowManager, blockList, ruleEngine
    {
      Wired() && SensorInv(View(), cfg, clock)
    }

    constructor (cfg: Config, start: Time)
      requires cfg.Ok()
      ensures Valid() && View() == STARTED && this.cfg == cfg && clock == start
      ensures fresh(flowManager) && fresh(blockList) && fresh(ruleEngine)
    {
      this.cfg := cfg;
      var engine := new Detection.RuleEngine();
      engine.AddRule(Detection.PortScan(cfg.portThreshold));
      engine.AddRule(Detection.SynFlood(cfg.synThreshold));
      ruleEngine := engine;
      flowManager := new FlowManagement.FlowManager(cfg.limits);
      blockList := new Blocking.BlockList();
      submitted, nextFlowSequence := [], 1;
      ruleBlocks, aiBlocks, aiDuplicates, aiWhitelisted := 0, 0, 0, 0;
      clock := start;
      counted, made := [], [];
      new;
      StartIsSafe(cfg, start);
    }

    // A clock reading: time never goes back.
    method Now() returns (now: Time)
      modifies `clock
      ensures old(clock) <= now == clock
    {
      var elapsed: int :| elapsed >= 0;
      clock := clock + elapsed;
      now := clock;
    }

    // Submits a finished remote flow. The code looks once more whether the
    // source is whitelisted or blocked; for a flow of the table it never is.
    method ConsumeFlow(ended: EndedFlow)
      requires Wired()
      requires OriginClean(ended.flow.origin, blockList.View(), cfg, clock, ended.flow.key)
      modifies `submitted, `nextFlowSequence, `clock
      ensures Wired() && old(clock) <= clock
      ensures submitted == Submit(old(submitted), ended)
    {
      if ended.flow.origin != RemoteInitiated {
        return;
      }
      var packetCount := ended.flow.forward.payloadLen.count + ended.flow.backward.payloadLen.count;
      if packetCount <= 1 {
        return;
      }
      var srcIp := ended.flow.key.srcIp;
      var now := Now();
      var blocked := blockList.Contains(srcIp, now);
      if srcIp in cfg.whitelist || blocked {
        return;
      }
      submitted := submitted + [FlowRecord(nextFlowSequence, ended.flow, ended.reason)];
      nextFlowSequence := nextFlowSequence + 1;
    }

    // Takes out and submits the packet's flow if that packet ended it.
    method CompletePacketFlow(key: FiveTuple)
      requires Wired() && OriginsClean(flowManager.tracks, blockList.View(), cfg, clock)
      modifies this, flowManager
      ensures Wired() && Sound(old(View()).table) && View() == CompleteFlow(old(View()), key)
      ensures old(clock) <= clock
    {
      hide OriginClean, Submit, FlowTable.ExtractCompleted, Blocking.BlockList.Valid;
      ExtractedOrigin(flowManager.View(), blockList.View(), cfg, clock, key);
      var completed := flowManager.ExtractCompleted(key);
      if completed.Some? {
        ConsumeFlow(completed.value);
      }
    }

    method HandleInbound(packet: Packet, now: Time) returns (accept: bool)
      requires Valid() && now == clock
      modifies this, flowManager, blockList
      ensures Valid() && now <= clock
      ensures (View(), accept) == Pipeline.HandleInbound(old(View()), cfg, packet, now)
    {
      hide SensorInv, RuleHit, Observe, Block, DiscardSource, CompleteFlow, Inv,
           FlowManagement.FlowManager.Valid, Blocking.BlockList.Valid;
      ghost var before := View();
      InboundKeepsInv(before, cfg, packet, now);
      var srcIp := packet.tuple.srcIp;
      if srcIp in cfg.whitelist {
        return true;
      }
      var blocked := blockList.Contains(srcIp, now);
      if blocked {
        return false;
      }
      if !packet.hasPorts {
        return true;
      }
      var stats := flowManager.ObservePacket(packet, Inbound, now);
      if stats.Some? {
        var hit := ruleEngine.Check(stats.value);
        FirstMatchIsHit(cfg, stats.value, hit, ruleEngine.rules);
        counted := counted + [Counted(srcIp, now, Syn(packet.tcpFlags), packet.tuple.dstPort,
                                      stats.value.windowStart, hit.None?)];
        if hit.Some? {
          flowManager.DiscardSourceFlows(srcIp);
          ruleBlocks := ruleBlocks + 1;
          blockList.Add(srcIp, cfg.ttlSeconds, now);
          made := made + [Made(srcIp, now)];
          return false;
        }
      }
      ObservedOrigins(before, cfg, packet, Inbound, now);
      CompletePacketFlow(packet.tuple);
      LaterIsSafe(View(), cfg, now, clock);
      accept := true;
    }

    method HandleOutbound(packet: Packet, now: Time) returns (accept: bool)
      requires Valid() && now == clock
      modifies this, flowManager, blockList
      ensures Valid() && now <= clock
      ensures (View(), accept) == Pipeline.HandleOutbound(old(View()), cfg, packet, now)
    {
      hide SensorInv, RuleHit, Observe, Block, DiscardSource, CompleteFlow, Inv,
           FlowManagement.FlowManager.Valid, Blocking.BlockList.Valid;
      ghost var before := View();
      OutboundKeepsInv(before, cfg, packet, now);
      var dstIp := packet.tuple.dstIp;
      var blocked := blockList.Contains(dstIp, now);
      if dstIp in cfg.whitelist || blocked || !packet.hasPorts {
        return true;
      }
      var stats := flowManager.ObservePacket(packet, Outbound, now);
      ObservedOrigins(before, cfg, packet, Outbound, now);
      CompletePacketFlow(packet.tuple);
      LaterIsSafe(View(), cfg, now, clock);
      accept := true;
    }

    // The verdict on a raw packet; now is the instant it was decided at.
    method OnPacket(data: seq<Byte>, direction: Direction) returns (accept: bool, ghost now: Time)
      requires Valid()
      modifies this, flowManager, blockList
      ensures Valid() && old(clock) <= now <= clock
      ensures var parsed := PacketParser.Parse(data);
              (View(), accept) ==
              if direction.UnknownDirection? || parsed.None? then (old(View()), true)
              else if direction.Inbound? then Pipeline.HandleInbound(old(View()), cfg, parsed.value, now)
              else Pipeline.HandleOutbound(old(View()), cfg, parsed.value, now)
    {
      hide SensorInv, Pipeline.HandleInbound, Pipeline.HandleOutbound, PacketParser.Parse;
      now := clock;
      if direction.UnknownDirection? {
        return true, now;
      }
      ghost var before := View();
      var at := Now();
      now := at;
      LaterIsSafe(before, cfg, old(clock), at);
      var parsed := PacketParser.Parse(data);
      if parsed.None? {
        return true, now;
      }
      if direction.Inbound? {
        accept := HandleInbound(parsed.value, at);
      } else {
        accept := HandleOutbound(parsed.value, at);
      }
    }

    method ApplyAiDecisions(decisions: seq<Decision>, now: Time)
      requires Valid() && now == clock
      modifies this, flowManager, blockList
      ensures Wired() && clock == now
      ensures View() == ApplyDecisions(old(View()), cfg, decisions, now)
    {
      hide SensorInv, Block, DiscardSource, FlowManagement.FlowManager.Valid, Blocking.BlockList.Valid, IsBlocked;
      for i := 0 to |decisions|
        invariant Wired() && clock == now
        invariant View() == ApplyDecisions(old(View()), cfg, decisions[..i], now)
      {
        assert decisions[..i + 1][..i] == decisions[..i];
        var decision := decisions[i];
        if !decision.anomaly {
          continue;
        }
        var sourceIp := decision.ip;
        if sourceIp in cfg.whitelist {
          aiWhitelisted := aiWhitelisted + 1;
          continue;
        }
        var blocked := blockList.Contains(sourceIp, now);
        if blocked {
          aiDuplicates := aiDuplicates + 1;
          continue;
        }
        flowManager.DiscardSourceFlows(sourceIp);
        blockList.Add(sourceIp, cfg.ttlSeconds, now);
        made := made + [Made(sourceIp, now)];
        aiBlocks := aiBlocks + 1;
      }
      assert decisions[..|decisions|] == decisions;
    }

    method OnTick(decisions: seq<Decision>) returns (ghost now: Time)
      requires Valid()
      modifies this, flowManager, blockList
      ensures Valid() && old(clock) <= now <= clock
      ensures Pipeline.OnTick(old(View()), cfg, decisions, now, View())
    {
      hide SensorInv, ApplyDecisions, Cleanup, ListsSwept, Tick, Inv,
           FlowManagement.FlowManager.Valid, Blocking.BlockList.Valid;
      ghost var before := View();
      var at := Now();
      now := at;
      LaterIsSafe(before, cfg, old(clock), at);
      ApplyAiDecisions(decisions, at);
      ghost var decided := View();
      DecisionsKeepInv(before, cfg, decisions, at);
      SensorSound(decided, cfg, at);
      var expired := flowManager.CleanupExpired(at);
      for i := 0 to |expired|
        invariant Wired() && at <= clock
        invariant View() == decided.(table := Tick(decided.table, cfg.limits, at),
                                     submitted := SubmitAll(decided.submitted, expired[..i]))
      {
        SweptOrigin(decided, cfg, at, expired, i, clock);
        assert expired[..i + 1][..i] == expired[..i];
        ConsumeFlow(expired[i]);
      }
      assert expired[..|expired|] == expired;
      blockList.CleanupExpired(at);
      TickKeepsInv(before, cfg, decisions, at, View());
      LaterIsSafe(View(), cfg, at, clock);
    }
  }
}
