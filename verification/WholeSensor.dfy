/** The capture thread and the AI client together: what the pipeline submits is
    offered to the client, and what the client decides comes back at a tick. */
module WholeSensor {
  import opened Common
  import opened Pipeline
  import opened FlowModel
  import Blocking
  import FlowTable
  import Ai = AiProtocol

  // outbox holds records submitted and not yet offered to the client; aiMade the
  // blocks made because of the model, in order; clock the last event's instant.
  datatype System = System(sensor: Sensor, client: Ai.Client, outbox: seq<FlowRecord>, aiMade: seq<Made>, clock: Time)

  datatype Move =
    | Traffic(event: Event)
    | Tick(now: Time)
    | Offer
    | Other(action: Ai.Action)

  function NewSystem(capacity: nat, start: Time): (s: System) {
    System(STARTED, Ai.Fresh(capacity), [], [], start)
  }

  // What a drained decision tells the pipeline: every one is an anomaly, about
  // the source of its record.
  function Reported(qs: seq<Ai.Queued>): (ds: seq<Decision>) {
    seq(|qs|, i requires 0 <= i < |qs| => Decision(qs[i].decision.record.flow.key.srcIp, true))
  }

  // The capture thread handles one event, drained decisions included, and then
  // offers what it submitted before it takes the next.
  ghost predicate Captures(s: System, cfg: Config, e: Event, s': System) {
    && s.outbox == [] && e.now >= s.clock
    && Step(s.sensor, cfg, e, s'.sensor)
    && |s.sensor.submitted| <= |s'.sensor.submitted| && |s.sensor.made| <= |s'.sensor.made|
    && s'.outbox == s'.sensor.submitted[|s.sensor.submitted|..] && s'.clock == e.now
  }

  ghost predicate Moves(s: System, cfg: Config, m: Move, s': System) {
    match m
    case Traffic(e) => !e.TickEvent? && Captures(s, cfg, e, s') && s'.client == s.client && s'.aiMade == s.aiMade
    case Tick(now) =>
      && Captures(s, cfg, TickEvent(Reported(s.client.m.decisions), now), s')
      && s'.client == Ai.Next(s.client, Ai.Drain)
      && s'.aiMade == s.aiMade + s'.sensor.made[|s.sensor.made|..]
    case Offer => s.outbox != [] && s' == s.(client := Ai.Next(s.client, Ai.Consume(s.outbox[0])), outbox := s.outbox[1..])
    case Other(a) => !a.Drain? && !a.Consume? && Ai.Enabled(s.client, a) && s' == s.(client := Ai.Next(s.client, a))
  }

  // The record was submitted, under its number, and offered.
  predicate Offered(s: System, r: FlowRecord) {
    1 <= r.id <= |s.sensor.submitted| - |s.outbox| && s.sensor.submitted[r.id - 1] == r
  }

  ghost predicate Earned(client: Ai.Client, m: Made) {
    exists q | q in client.h.drained :: q.decision.record.flow.key.srcIp == m.ip
  }

  // Accepted records were offered, in the order of their numbers.
  ghost predicate InOrder(s: System) {
    && |s.outbox| <= |s.sensor.submitted|
    && s.outbox == s.sensor.submitted[|s.sensor.submitted| - |s.outbox|..]
    && (forall t | t in s.client.h.accepted :: Offered(s, t.record))
    && (forall i, j | 0 <= i < j < |s.client.h.accepted| ::
          s.client.h.accepted[i].record.id < s.client.h.accepted[j].record.id)
  }

  ghost predicate Counted(s: Sensor) {
    Tallied(s, s.aiBlocks + s.aiDuplicates + s.aiWhitelisted)
  }

  ghost predicate SystemInv(s: System, cfg: Config) {
    && cfg.Ok() && SensorInv(s.sensor, cfg, s.clock) && Ai.Inv(s.client)
    && Counted(s.sensor) && InOrder(s)
    && (forall m | m in s.aiMade :: m in s.sensor.made && Earned(s.client, m))
    && |s.aiMade| == s.sensor.aiBlocks
  }

  lemma NewSystemIsSound(cfg: Config, capacity: nat, start: Time)
    requires cfg.Ok()
    ensures SystemInv(NewSystem(capacity, start), cfg)
  {
    StartIsSafe(cfg, start);
    Ai.FreshIsSafe(capacity);
  }

  // ---- what the pipeline's steps do to submissions and blocks ----

  lemma {:induction false} SubmitAllExtends(submitted: seq<FlowRecord>, ended: seq<EndedFlow>)
    ensures submitted <= SubmitAll(submitted, ended)
  {
    hide Submittable;
    if ended != [] {
      SubmitAllExtends(submitted, ended[..|ended| - 1]);
    }
  }

  predicate Named(ds: seq<Decision>, ip: Ip) {
    exists d | d in ds :: d.ip == ip
  }

  lemma {:induction false} DecisionsMake(s: Sensor, cfg: Config, ds: seq<Decision>, now: Time)
    ensures var s' := ApplyDecisions(s, cfg, ds, now);
            && s.made <= s'.made && s'.submitted == s.submitted
            && |s'.made| - |s.made| == s'.aiBlocks - s.aiBlocks
            && (forall i | |s.made| <= i < |s'.made| :: Named(ds, s'.made[i].ip))
  {
    hide FlowTable.DiscardSource, Blocking.Block;
    if ds != [] {
      var n := |ds| - 1;
      DecisionsMake(s, cfg, ds[..n], now);
      var mid := ApplyDecisions(s, cfg, ds[..n], now);
      var s' := ApplyDecisions(s, cfg, ds, now);
      forall i | |s.made| <= i < |s'.made| ensures Named(ds, s'.made[i].ip) {
        if i < |mid.made| {
          assert Named(ds[..n], mid.made[i].ip);
        } else {
          assert ds[n] in ds;
        }
      }
    }
  }

  lemma TickMakes(s: Sensor, cfg: Config, ds: seq<Decision>, now: Time, s': Sensor)
    requires cfg.limits.Ok() && OnTick(s, cfg, ds, now, s')
    ensures s.made <= s'.made && s.submitted <= s'.submitted
    ensures |s'.made| - |s.made| == s'.aiBlocks - s.aiBlocks
    ensures forall i | |s.made| <= i < |s'.made| :: Named(ds, s'.made[i].ip)
  {
    hide Blocking.Cleanup, FlowTable.ListsSwept, FlowTable.Tick, ApplyDecisions;
    var decided := ApplyDecisions(s, cfg, ds, now);
    DecisionsMake(s, cfg, ds, now);
    var ended :| FlowTable.ListsSwept(ended, decided.table, cfg.limits, now) && s'.submitted == SubmitAll(decided.submitted, ended);
    SubmitAllExtends(decided.submitted, ended);
    assert s'.made == decided.made;
  }

  lemma PacketMakes(s: Sensor, cfg: Config, e: Event, s': Sensor)
    requires FlowTable.Inv(s.table, cfg.limits) && Step(s, cfg, e, s') && !e.TickEvent?
    ensures s.made <= s'.made && s.submitted <= s'.submitted && s'.aiBlocks == s.aiBlocks
  {
    hide FlowTable.Inv, FlowTable.Observe, FlowTable.ExtractCompleted, FlowTable.DiscardSource, Blocking.Block, RuleHit, Submittable;
  }

  // ---- each move keeps the invariant ----

  lemma TalliedIsCounted(s: Sensor)
    ensures (exists n :: Tallied(s, n)) ==> Counted(s)
  {
  }

  lemma EventKeepsSensor(s: System, cfg: Config, e: Event, s': System)
    requires SystemInv(s, cfg) && Captures(s, cfg, e, s')
    ensures SensorInv(s'.sensor, cfg, s'.clock) && Counted(s'.sensor)
  {
    hide FlowTable.Inv, HandleInbound, HandleOutbound, OnTick, Tallied, Ai.Inv, InOrder, SensorInv;
    SensorTable(s.sensor, cfg, s.clock);
    LaterIsSafe(s.sensor, cfg, s.clock, e.now);
    match e {
      case InboundEvent(p, now) => InboundKeepsInv(s.sensor, cfg, p, now);
      case OutboundEvent(p, now) => OutboundKeepsInv(s.sensor, cfg, p, now);
      case TickEvent(ds, now) => TickKeepsInv(s.sensor, cfg, ds, now, s'.sensor);
    }
    StepTallies(s.sensor, cfg, e, s'.sensor, s.sensor.aiBlocks + s.sensor.aiDuplicates + s.sensor.aiWhitelisted);
    TalliedIsCounted(s'.sensor);
  }

  // A longer list of submissions leaves what was offered as it was.
  lemma NewSubmissions(s: System, s': System)
    requires InOrder(s) && s.outbox == [] && s.sensor.submitted <= s'.sensor.submitted
    requires s'.outbox == s'.sensor.submitted[|s.sensor.submitted|..] && s'.client.h.accepted == s.client.h.accepted
    ensures InOrder(s')
  {
    forall t | t in s'.client.h.accepted ensures Offered(s', t.record) {
      assert Offered(s, t.record);
    }
  }

  lemma PacketKeepsInv(s: System, cfg: Config, e: Event, s': System)
    requires SystemInv(s, cfg) && Moves(s, cfg, Traffic(e), s')
    ensures SystemInv(s', cfg)
  {
    EventKeepsSensor(s, cfg, e, s');
    PacketMakes(s.sensor, cfg, e, s'.sensor);
    NewSubmissions(s, s');
    hide SensorInv, Counted, InOrder, Ai.Inv, Step, Earned, FlowTable.Inv;
  }

  lemma DrainDrains(client: Ai.Client)
    ensures var client' := Ai.Next(client, Ai.Drain);
            client'.h.drained == client.h.drained + client.m.decisions && client'.h.accepted == client.h.accepted
  {
  }

  lemma EarnedStays(client: Ai.Client, client': Ai.Client, m: Made)
    requires Earned(client, m) && client.h.drained <= client'.h.drained
    ensures Earned(client', m)
  {
    var q :| q in client.h.drained && q.decision.record.flow.key.srcIp == m.ip;
    assert q in client'.h.drained;
  }

  lemma SystemTickKeepsInv(s: System, cfg: Config, now: Time, s': System)
    requires SystemInv(s, cfg) && Moves(s, cfg, Tick(now), s')
    ensures SystemInv(s', cfg)
  {
    hide SensorInv, Counted, InOrder, Ai.Inv, FlowTable.Inv, OnTick, HandleInbound, HandleOutbound;
    var ds := Reported(s.client.m.decisions);
    EventKeepsSensor(s, cfg, TickEvent(ds, now), s');
    SensorTable(s.sensor, cfg, s.clock);
    TickMakes(s.sensor, cfg, ds, now, s'.sensor);
    Ai.NextKeepsInv(s.client, Ai.Drain);
    DrainDrains(s.client);
    NewSubmissions(s, s');
    forall m | m in s'.aiMade ensures m in s'.sensor.made && Earned(s'.client, m) {
      if m in s.aiMade {
        EarnedStays(s.client, s'.client, m);
      } else {
        var i :| |s.sensor.made| <= i < |s'.sensor.made| && s'.sensor.made[i] == m;
        assert Named(ds, s'.sensor.made[i].ip);
        var d :| d in ds && d.ip == m.ip;
        var k :| 0 <= k < |ds| && ds[k] == d;
        assert s.client.m.decisions[k] in s'.client.h.drained;
      }
    }
  }

  lemma ConsumeAccepts(client: Ai.Client, r: FlowRecord)
    ensures var client' := Ai.Next(client, Ai.Consume(r));
            && client'.h.drained == client.h.drained
            && (client'.h.accepted == client.h.accepted
                || exists t :: client'.h.accepted == client.h.accepted + [t] && t.record == r)
  {
    var client' := Ai.Next(client, Ai.Consume(r));
    if client'.h.accepted != client.h.accepted {
      var t := Ai.Ticket(|client.h.accepted|, r, client.m.gen);
      assert client'.h.accepted == client.h.accepted + [t];
    }
  }

  lemma OfferKeepsInv(s: System, cfg: Config, s': System)
    requires SystemInv(s, cfg) && Moves(s, cfg, Offer, s')
    ensures SystemInv(s', cfg)
  {
    hide SensorInv, Ai.Inv, Submittable;
    var r := s.outbox[0];
    Ai.NextKeepsInv(s.client, Ai.Consume(r));
    ConsumeAccepts(s.client, r);
    assert s.sensor.submitted[|s.sensor.submitted| - |s.outbox|] == r;
    assert Offered(s', r);
    forall t | t in s.client.h.accepted ensures Offered(s', t.record) && t.record.id < r.id {
      assert Offered(s, t.record);
    }
    forall m | m in s.aiMade ensures Earned(s'.client, m) {
      EarnedStays(s.client, s'.client, m);
    }
  }

  lemma OtherKeepsHistory(client: Ai.Client, a: Ai.Action)
    requires Ai.Enabled(client, a) && !a.Drain? && !a.Consume?
    ensures var h' := Ai.Next(client, a).h;
            h'.accepted == client.h.accepted && h'.drained == client.h.drained
  {
    match Ai.GroupOf(a) {
      case Outside =>
      case Outgoing =>
      case Answering =>
      case Ending =>
    }
  }

  lemma OtherKeepsInv(s: System, cfg: Config, a: Ai.Action, s': System)
    requires SystemInv(s, cfg) && Moves(s, cfg, Other(a), s')
    ensures SystemInv(s', cfg)
  {
    hide SensorInv, Counted, Ai.Inv, Ai.Next;
    Ai.NextKeepsInv(s.client, a);
    OtherKeepsHistory(s.client, a);
    forall m | m in s.aiMade ensures Earned(s'.client, m) {
      EarnedStays(s.client, s'.client, m);
    }
  }

  /** Every move of the capture thread and of the client's threads keeps the
      composed invariant. */
  lemma MoveKeepsSystemInv(s: System, cfg: Config, m: Move, s': System)
    requires SystemInv(s, cfg) && Moves(s, cfg, m, s')
    ensures SystemInv(s', cfg)
  {
    hide SystemInv, Captures;
    match m {
      case Traffic(e) => PacketKeepsInv(s, cfg, e, s');
      case Tick(now) => SystemTickKeepsInv(s, cfg, now, s');
      case Offer => OfferKeepsInv(s, cfg, s');
      case Other(a) => OtherKeepsInv(s, cfg, a, s');
    }
  }

  ghost predicate IsSystemRun(states: seq<System>, moves: seq<Move>, cfg: Config) {
    && |states| == |moves| + 1
    && forall i | 0 <= i < |moves| :: Moves(states[i], cfg, moves[i], states[i + 1])
  }

  lemma {:induction false} SystemRunKeepsInv(states: seq<System>, moves: seq<Move>, cfg: Config, capacity: nat, start: Time)
    requires cfg.Ok() && IsSystemRun(states, moves, cfg) && states[0] == NewSystem(capacity, start)
    ensures SystemInv(states[|moves|], cfg)
  {
    hide SystemInv, Moves;
    if moves == [] {
      NewSystemIsSound(cfg, capacity, start);
    } else {
      var n := |moves| - 1;
      SystemRunKeepsInv(states[..n + 1], moves[..n], cfg, capacity, start);
      MoveKeepsSystemInv(states[n], cfg, moves[n], states[n + 1]);
    }
  }

  // A decision about a flow that was really submitted: remote, of two packets or
  // more, accepted by the client, and judged by the model of its generation.
  ghost predicate Grounded(s: System, q: Ai.Queued) {
    && q.decision.record in s.sensor.submitted && Submittable(q.decision.record.flow)
    && q.ticket in s.client.h.accepted && q.ticket.record == q.decision.record
    && q.ticket.gen in s.client.h.links && q.decision.modelVersion == s.client.h.links[q.ticket.gen].model
  }

  lemma DrainedIsGrounded(s: System, cfg: Config, q: Ai.Queued)
    requires SystemInv(s, cfg) && q in s.client.h.drained
    ensures Grounded(s, q)
  {
    hide SensorInv, Ai.SocketSafe, Ai.Conserved, Ai.Ordered, Ai.LostAreOver;
    assert Ai.Faithful(s.client, q);
    assert q.ticket in s.client.h.accepted;
    assert Offered(s, q.ticket.record);
  }

  lemma DrainedInOrder(s: System, cfg: Config)
    requires SystemInv(s, cfg)
    ensures forall i, j | 0 <= i < j < |s.client.h.drained| ::
              s.client.h.drained[i].decision.record.id < s.client.h.drained[j].decision.record.id
  {
    hide SensorInv, Ai.SocketSafe, Ai.Conserved, Ai.LostAreOver;
    var drained := s.client.h.drained;
    var tickets := Ai.Tickets(drained);
    forall i, j | 0 <= i < j < |drained| ensures drained[i].decision.record.id < drained[j].decision.record.id {
      assert Ai.Line(s.client)[i] == tickets[i] && Ai.Line(s.client)[j] == tickets[j];
      assert Ai.Faithful(s.client, drained[i]) && Ai.Faithful(s.client, drained[j]);
    }
  }

  /** Over any interleaving: every block made because of the model is of the source
      of a remote flow that was submitted, accepted and judged, and no submitted
      flow is judged twice. */
  lemma AiBlocksAreEarned(states: seq<System>, moves: seq<Move>, cfg: Config, capacity: nat, start: Time)
    requires cfg.Ok() && IsSystemRun(states, moves, cfg) && states[0] == NewSystem(capacity, start)
    ensures var s := states[|moves|];
            && |s.aiMade| == s.sensor.aiBlocks
            && (forall m | m in s.aiMade ::
                  m in s.sensor.made
                  && exists q | q in s.client.h.drained :: q.decision.record.flow.key.srcIp == m.ip && Grounded(s, q))
            && (forall q | q in s.client.h.drained :: Grounded(s, q))
            && (forall i, j | 0 <= i < j < |s.client.h.drained| ::
                  s.client.h.drained[i].decision.record.id < s.client.h.drained[j].decision.record.id)
  {
    hide SensorInv;
    SystemRunKeepsInv(states, moves, cfg, capacity, start);
    var s := states[|moves|];
    hide IsSystemRun;
    forall q | q in s.client.h.drained ensures Grounded(s, q) {
      DrainedIsGrounded(s, cfg, q);
    }
    forall m | m in s.aiMade
      ensures exists q | q in s.client.h.drained :: q.decision.record.flow.key.srcIp == m.ip && Grounded(s, q)
    {
      var q :| q in s.client.h.drained && q.decision.record.flow.key.srcIp == m.ip;
      assert Grounded(s, q);
    }
    DrainedInOrder(s, cfg);
  }
}
