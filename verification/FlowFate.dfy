/** What becomes of every flow: over a whole run of the pipeline it stays, or ends
    and is submitted once if it qualifies, or is discarded because its source was
    blocked; and an idle one is decided within eleven ticks. */
module FlowFate {
  import opened Common
  import opened FlowModel
  import opened FlowTable
  import opened Pipeline
  import Blocking
  import Sweep

  // No packet of the conversation.
  predicate Spares(e: Event, k: FiveTuple) {
    e.TickEvent? || (e.p.tuple != k && e.p.tuple.Reversed() != k)
  }

  // The packet is looked at for its flow: neither listed nor without ports.
  predicate Observes(s: Sensor, cfg: Config, e: Event) {
    match e
    case InboundEvent(p, now) => p.tuple.srcIp !in cfg.whitelist && !Blocking.IsBlocked(s.blocks, p.tuple.srcIp, now) && p.hasPorts
    case OutboundEvent(p, now) => p.tuple.dstIp !in cfg.whitelist && !Blocking.IsBlocked(s.blocks, p.tuple.dstIp, now) && p.hasPorts
    case TickEvent(_, _) => false
  }

  // A live flow's history after an event: longer by its packet, if that is one of
  // the conversation and is looked at.
  function Grown(s: Sensor, cfg: Config, e: Event, k: FiveTuple): (later: Track)
    requires k in s.table.tracks
  {
    var track := s.table.tracks[k];
    if Spares(e, k) || !Observes(s, cfg, e) then track
    else track.(seen := track.seen + [Seen(e.p, e.p.tuple == k, e.now)])
  }

  // The flows submitted under a key, in order.
  function SubmittedAs(records: seq<FlowRecord>, k: FiveTuple): (flows: seq<Flow>) {
    if records == [] then []
    else
      var last := records[|records| - 1].flow;
      SubmittedAs(records[..|records| - 1], k) + (if last.key == k then [last] else [])
  }

  predicate Stays(s: Sensor, s': Sensor, k: FiveTuple, final: Track) {
    k in s'.table.tracks && s'.table.tracks[k] == final && SubmittedAs(s'.submitted, k) == SubmittedAs(s.submitted, k)
  }

  // The flow is over or timed out; it leaves the table, and is submitted once if it
  // qualifies.
  predicate Ends(s: Sensor, s': Sensor, k: FiveTuple, final: Track, now: Time) {
    && k !in s'.table.tracks && final.seen != [] && (Terminal(final.seen) || TimedOut(final, now))
    && SubmittedAs(s'.submitted, k)
       == SubmittedAs(s.submitted, k) + (if Submittable(Record(k, final)) then [Record(k, final)] else [])
  }

  predicate NewlyBlocked(s: Sensor, s': Sensor, ip: Ip, now: Time) {
    |s.made| < |s'.made| && exists i | |s.made| <= i < |s'.made| :: s'.made[i] == Made(ip, now)
  }

  // The flow leaves the table because its source is blocked just now.
  predicate Discarded(s: Sensor, s': Sensor, k: FiveTuple, now: Time) {
    && k !in s'.table.tracks && SubmittedAs(s'.submitted, k) == SubmittedAs(s.submitted, k)
    && NewlyBlocked(s, s', k.srcIp, now)
  }

  predicate HasFate(s: Sensor, s': Sensor, k: FiveTuple, final: Track, now: Time) {
    Stays(s, s', k, final) || Ends(s, s', k, final, now) || Discarded(s, s', k, now)
  }

  // ---- one step ----

  lemma ObserveGrows(t: Table, lim: Limits, p: Packet, dir: Direction, now: Time, k: FiveTuple)
    requires Sound(t) && k in t.tracks && !dir.UnknownDirection?
    ensures var t' := Observe(t, lim, p, dir, now).0;
            && k in t'.tracks
            && t'.tracks[k] == if p.tuple != k && p.tuple.Reversed() != k then t.tracks[k]
                               else t.tracks[k].(seen := t.tracks[k].seen + [Seen(p, p.tuple == k, now)])
  {
    assert SoundAt(t.tracks, k);
    ReversedTwice(p.tuple);
    hide Sound, UpdateSource;
  }

  lemma SubmitAs(submitted: seq<FlowRecord>, ended: EndedFlow, k: FiveTuple)
    ensures SubmittedAs(Submit(submitted, ended), k)
         == SubmittedAs(submitted, k) + (if Submittable(ended.flow) && ended.flow.key == k then [ended.flow] else [])
  {
    var r := FlowRecord(|submitted| + 1, ended.flow, ended.reason);
    assert (submitted + [r])[..|submitted|] == submitted;
  }

  // Taking out and submitting the packet's flow, if it is over.
  lemma CompleteFate(s: Sensor, key: FiveTuple, k: FiveTuple, now: Time)
    requires Sound(s.table) && k in s.table.tracks
    ensures HasFate(s, CompleteFlow(s, key), k, s.table.tracks[k], now)
  {
    hide Submittable, SawReset, HandshakeComplete, Summary, SubmittedAs, Submit;
    assert SoundAt(s.table.tracks, k);
    var (table, ended) := ExtractCompleted(s.table, key);
    if ended.Some? {
      SubmitAs(s.submitted, ended.value, k);
    }
  }

  // Fates only depend on what was submitted and blocked before.
  lemma FateFrom(s: Sensor, mid: Sensor, s': Sensor, k: FiveTuple, final: Track, now: Time)
    requires HasFate(mid, s', k, final, now) && mid.submitted == s.submitted && mid.made == s.made
    ensures HasFate(s, s', k, final, now)
  {
  }

  lemma HitFate(s: Sensor, cfg: Config, ip: Ip, k: FiveTuple, now: Time)
    requires k in s.table.tracks
    ensures HasFate(s, BlockSource(s, cfg, ip, now), k, s.table.tracks[k], now)
  {
    var s' := BlockSource(s, cfg, ip, now);
    assert s'.made[|s.made|] == Made(ip, now);
  }

  lemma CountersAside(s: Sensor, mid: Sensor, s': Sensor, n: nat, k: FiveTuple, final: Track, now: Time)
    requires HasFate(mid, s', k, final, now) && mid.submitted == s.submitted && mid.made == s.made
    ensures HasFate(s, s'.(ruleBlocks := n), k, final, now)
  {
  }

  lemma NothingHappens(s: Sensor, k: FiveTuple, now: Time)
    requires k in s.table.tracks
    ensures HasFate(s, s, k, s.table.tracks[k], now)
  {
  }

  lemma InboundFate(s: Sensor, cfg: Config, p: Packet, now: Time, k: FiveTuple)
    requires Inv(s.table, cfg.limits) && k in s.table.tracks
    ensures HasFate(s, HandleInbound(s, cfg, p, now).0, k, Grown(s, cfg, InboundEvent(p, now), k), now)
  {
    hide Observe, ExtractCompleted, CompleteFlow, BlockSource, RuleHit, HasFate, WithinCaps;
    NothingHappens(s, k, now);
    if Observes(s, cfg, InboundEvent(p, now)) {
      var observed := CountInbound(s, cfg, p, now);
      ObserveGrows(s.table, cfg.limits, p, Inbound, now, k);
      ObserveSound(s, cfg, p, Inbound, now);
      var final := observed.table.tracks[k];
      if InboundHit(s, cfg, p, now) {
        HitFate(observed, cfg, p.tuple.srcIp, k, now);
        CountersAside(s, observed, BlockSource(observed, cfg, p.tuple.srcIp, now), s.ruleBlocks + 1, k, final, now);
      } else {
        CompleteFate(observed, p.tuple, k, now);
        FateFrom(s, observed, CompleteFlow(observed, p.tuple), k, final, now);
      }
    }
  }

  lemma OutboundFate(s: Sensor, cfg: Config, p: Packet, now: Time, k: FiveTuple)
    requires Inv(s.table, cfg.limits) && k in s.table.tracks
    ensures HasFate(s, HandleOutbound(s, cfg, p, now).0, k, Grown(s, cfg, OutboundEvent(p, now), k), now)
  {
    hide Observe, ExtractCompleted, CompleteFlow, HasFate, WithinCaps;
    NothingHappens(s, k, now);
    if Observes(s, cfg, OutboundEvent(p, now)) {
      var observed := s.(table := Observe(s.table, cfg.limits, p, Outbound, now).0);
      ObserveGrows(s.table, cfg.limits, p, Outbound, now, k);
      ObserveSound(s, cfg, p, Outbound, now);
      CompleteFate(observed, p.tuple, k, now);
      FateFrom(s, observed, CompleteFlow(observed, p.tuple), k, observed.table.tracks[k], now);
    }
  }

  // Decisions touch no flow but those of the sources they block.
  lemma {:induction false} DecisionsFate(s: Sensor, cfg: Config, ds: seq<Decision>, now: Time, k: FiveTuple)
    requires k in s.table.tracks
    ensures var s' := ApplyDecisions(s, cfg, ds, now);
            && s'.submitted == s.submitted && s.made <= s'.made && s'.table.flowCursor == s.table.flowCursor
            && (if k in s'.table.tracks then s'.table.tracks[k] == s.table.tracks[k] else NewlyBlocked(s, s', k.srcIp, now))
  {
    hide Blocking.Block, Blocking.IsBlocked;
    if ds != [] {
      var n := |ds| - 1;
      DecisionsFate(s, cfg, ds[..n], now, k);
      var mid, s' := ApplyDecisions(s, cfg, ds[..n], now), ApplyDecisions(s, cfg, ds, now);
      if |s'.made| > |mid.made| {
        assert s'.made[|mid.made|] == Made(ds[n].ip, now);
      }
      if k !in mid.table.tracks {
        var i :| |s.made| <= i < |mid.made| && mid.made[i] == Made(k.srcIp, now);
        assert s'.made[i] == Made(k.srcIp, now);
      }
    }
  }

  // Of a list of ended flows, those with the key, as far as they qualify.
  function EndedAs(ended: seq<EndedFlow>, k: FiveTuple): (flows: seq<Flow>) {
    if ended == [] then []
    else
      var last := ended[|ended| - 1].flow;
      EndedAs(ended[..|ended| - 1], k) + (if Submittable(last) && last.key == k then [last] else [])
  }

  lemma {:induction false} SubmitAllAs(submitted: seq<FlowRecord>, ended: seq<EndedFlow>, k: FiveTuple)
    ensures SubmittedAs(SubmitAll(submitted, ended), k) == SubmittedAs(submitted, k) + EndedAs(ended, k)
  {
    hide Submittable, SubmittedAs, Submit;
    if ended != [] {
      var n := |ended| - 1;
      SubmitAllAs(submitted, ended[..n], k);
      SubmitAs(SubmitAll(submitted, ended[..n]), ended[n], k);
      Regroup(SubmittedAs(submitted, k), EndedAs(ended[..n], k),
              if Submittable(ended[n].flow) && ended[n].flow.key == k then [ended[n].flow] else []);
    }
  }

  lemma {:induction false} EndedNot(ended: seq<EndedFlow>, k: FiveTuple)
    requires forall i | 0 <= i < |ended| :: ended[i].flow.key != k
    ensures EndedAs(ended, k) == []
  {
    if ended != [] {
      EndedNot(ended[..|ended| - 1], k);
    }
  }

  lemma {:induction false} EndedOnce(ended: seq<EndedFlow>, k: FiveTuple, i: nat)
    requires i < |ended| && ended[i].flow.key == k
    requires forall j | 0 <= j < |ended| && j != i :: ended[j].flow.key != k
    ensures EndedAs(ended, k) == if Submittable(ended[i].flow) then [ended[i].flow] else []
  {
    var n := |ended| - 1;
    if i == n {
      EndedNot(ended[..n], k);
    } else {
      EndedOnce(ended[..n], k, i);
    }
  }

  // The flows a tick returns hold the key once if it is swept, and else never.
  lemma ListedAs(t: Table, lim: Limits, now: Time, ended: seq<EndedFlow>, k: FiveTuple)
    requires lim.Ok() && Sound(t) && ListsSwept(ended, t, lim, now)
    ensures if Swept(t, lim, now, k)
            then k in t.tracks && EndedAs(ended, k) == (if Submittable(FlowOf(t, k)) then [FlowOf(t, k)] else [])
            else EndedAs(ended, k) == []
  {
    hide Submittable, FlowOf, EndedAs;
    if Swept(t, lim, now, k) {
      var i :| 0 <= i < |ended| && ended[i].flow.key == k;
      assert Swept(t, lim, now, ended[i].flow.key);
      EndedOnce(ended, k, i);
    } else {
      EndedNot(ended, k);
    }
  }

  lemma SoundNonEmpty(t: Table, k: FiveTuple)
    requires Sound(t) && k in t.tracks
    ensures t.tracks[k].seen != [] && FlowOf(t, k) == Record(k, t.tracks[k])
  {
    assert SoundAt(t.tracks, k);
  }

  lemma TickFate(s: Sensor, cfg: Config, ds: seq<Decision>, now: Time, s': Sensor, k: FiveTuple)
    requires Inv(s.table, cfg.limits) && OnTick(s, cfg, ds, now, s') && k in s.table.tracks
    ensures HasFate(s, s', k, s.table.tracks[k], now)
    ensures Swept(s.table, cfg.limits, now, k) ==> !Stays(s, s', k, s.table.tracks[k])
  {
    hide ApplyDecisions, Blocking.Cleanup, SubmittedAs, EndedAs, Submittable, Summary, Sound, SubmitAll, ListsSwept;
    var decided := ApplyDecisions(s, cfg, ds, now);
    DecisionsFate(s, cfg, ds, now, k);
    var ended :| ListsSwept(ended, decided.table, cfg.limits, now) && s'.submitted == SubmitAll(decided.submitted, ended);
    SubmitAllAs(decided.submitted, ended, k);
    ListedAs(decided.table, cfg.limits, now, ended, k);
    if k in decided.table.tracks {
      SoundNonEmpty(decided.table, k);
    }
    assert SubmittedAs(s.submitted, k) + [] == SubmittedAs(s.submitted, k);
    assert s'.made == decided.made;
  }

  /** One event: a live flow stays, longer by exactly the packet if that is its
      own; or, with that packet, is over or timed out, and is submitted once if it
      qualifies; or is discarded because its source is blocked just then. */
  lemma StepFate(s: Sensor, cfg: Config, e: Event, s': Sensor, k: FiveTuple)
    requires Inv(s.table, cfg.limits) && Step(s, cfg, e, s') && k in s.table.tracks
    ensures HasFate(s, s', k, Grown(s, cfg, e, k), e.now)
  {
    hide Inv, OnTick, HandleInbound, HandleOutbound, HasFate, Observes;
    match e {
      case InboundEvent(p, now) => InboundFate(s, cfg, p, now, k);
      case OutboundEvent(p, now) => OutboundFate(s, cfg, p, now, k);
      case TickEvent(ds, now) => TickFate(s, cfg, ds, now, s', k);
    }
  }

  // ---- whole runs ----

  // From state i to state j the flow is live, grows by exactly its own packets, and
  // is not submitted.
  ghost predicate Lives(states: seq<Sensor>, events: seq<Event>, cfg: Config, i: nat, j: nat, k: FiveTuple)
    requires i <= j <= |events| < |states|
  {
    && (forall m | i <= m <= j ::
          k in states[m].table.tracks && SubmittedAs(states[m].submitted, k) == SubmittedAs(states[i].submitted, k))
    && (forall m | i <= m < j :: states[m + 1].table.tracks[k] == Grown(states[m], cfg, events[m], k))
  }

  // Event j is where the flow ends or is discarded, with the packets it has then.
  ghost predicate Leaves(states: seq<Sensor>, events: seq<Event>, cfg: Config, j: nat, k: FiveTuple)
    requires j < |events| < |states| && k in states[j].table.tracks
  {
    || Ends(states[j], states[j + 1], k, Grown(states[j], cfg, events[j], k), events[j].now)
    || Discarded(states[j], states[j + 1], k, events[j].now)
  }

  lemma RunStep(states: seq<Sensor>, events: seq<Event>, cfg: Config, j: nat)
    requires cfg.limits.Ok() && Pipeline.IsRun(states, events, cfg) && j < |events|
    ensures Inv(states[j].table, cfg.limits) && Step(states[j], cfg, events[j], states[j + 1])
  {
    hide Inv, Step;
    RunKeepsTable(states, events, cfg, j);
  }

  lemma RunShape(states: seq<Sensor>, events: seq<Event>, cfg: Config)
    requires Pipeline.IsRun(states, events, cfg)
    ensures |states| == |events| + 1 && states[0] == STARTED
  {
  }

  // Up to state n the flow has lived on, or has left at some event before.
  lemma {:induction false} FateUpTo(states: seq<Sensor>, events: seq<Event>, cfg: Config, i: nat, n: nat, k: FiveTuple)
    returns (left: bool, j: nat)
    requires cfg.limits.Ok() && Pipeline.IsRun(states, events, cfg) && i <= n <= |events| && k in states[i].table.tracks
    ensures !left ==> Lives(states, events, cfg, i, n, k)
    ensures left ==> i <= j < n && Lives(states, events, cfg, i, j, k) && Leaves(states, events, cfg, j, k)
    decreases n - i
  {
    hide Pipeline.IsRun, Inv, Step, Grown, Ends, Discarded;
    RunShape(states, events, cfg);
    if i == n {
      left, j := false, i;
    } else {
      left, j := FateUpTo(states, events, cfg, i, n - 1, k);
      if !left {
        RunStep(states, events, cfg, n - 1);
        StepFate(states[n - 1], cfg, events[n - 1], states[n], k);
        left, j := !Stays(states[n - 1], states[n], k, Grown(states[n - 1], cfg, events[n - 1], k)), n - 1;
      }
    }
  }

  /** Over any run every live flow has a fate: it lives to the end, growing by
      exactly its own packets; or there is an event up to which it does so and at
      which, with the packets it has then, it is over or timed out, and is submitted
      once if it is remote and of two packets or more and else never, or at which it
      is discarded because its source is blocked at that instant. */
  lemma EveryFlowHasAFate(states: seq<Sensor>, events: seq<Event>, cfg: Config, i: nat, k: FiveTuple)
    requires cfg.limits.Ok() && Pipeline.IsRun(states, events, cfg) && i <= |events| && k in states[i].table.tracks
    ensures || Lives(states, events, cfg, i, |events|, k)
            || exists j: nat ::
                 i <= j < |events| && Lives(states, events, cfg, i, j, k) && Leaves(states, events, cfg, j, k)
  {
    hide Pipeline.IsRun, Lives, Leaves;
    RunShape(states, events, cfg);
    var left, j := FateUpTo(states, events, cfg, i, |events|, k);
  }

  // ---- idle flows ----

  function Ticks(events: seq<Event>): (n: nat) {
    if events == [] then 0 else Ticks(events[..|events| - 1]) + (if events[|events| - 1].TickEvent? then 1 else 0)
  }

  lemma {:induction false} DecisionsCursor(s: Sensor, cfg: Config, ds: seq<Decision>, now: Time)
    ensures ApplyDecisions(s, cfg, ds, now).table.flowCursor == s.table.flowCursor
  {
    if ds != [] {
      DecisionsCursor(s, cfg, ds[..|ds| - 1], now);
    }
  }

  lemma StepCursor(s: Sensor, cfg: Config, e: Event, s': Sensor)
    requires Inv(s.table, cfg.limits) && Step(s, cfg, e, s')
    ensures s'.table.flowCursor ==
            if e.TickEvent? then Sweep.NextCursor(s.table.flowCursor, cfg.limits.flowBuckets) else s.table.flowCursor
  {
    hide Sound, FlowTable.UpdateFlow, UpdateSource, RuleHit, Blocking.Cleanup, ListsSwept, Submit, SubmitAll;
    if e.TickEvent? {
      DecisionsCursor(s, cfg, e.ds, e.now);
    }
  }

  // The sweep's cursor depends on the number of ticks alone.
  lemma {:induction false} CursorByTicks(states: seq<Sensor>, events: seq<Event>, cfg: Config, i: nat, n: nat)
    requires Pipeline.IsRun(states, events, cfg) && i <= n <= |events| && cfg.limits.Ok()
    ensures states[n].table.flowCursor
         == Sweep.CursorAfter(states[i].table.flowCursor, cfg.limits.flowBuckets, Ticks(events[i..n]))
    decreases n - i
  {
    hide Pipeline.IsRun, Inv, Step;
    RunShape(states, events, cfg);
    if i < n {
      CursorByTicks(states, events, cfg, i, n - 1);
      RunStep(states, events, cfg, n - 1);
      StepCursor(states[n - 1], cfg, events[n - 1], states[n]);
      assert events[i..n][..n - i - 1] == events[i..n - 1];
    }
  }

  // The position of the tick that follows t earlier ones.
  lemma {:induction false} TickAt(events: seq<Event>, i: nat, t: nat) returns (j: nat)
    requires i <= |events| && t < Ticks(events[i..])
    ensures i <= j < |events| && events[j].TickEvent? && Ticks(events[i..j]) == t
    decreases |events|
  {
    var n := |events| - 1;
    assert events[i..][..|events[i..]| - 1] == events[i..n] == events[..n][i..];
    if Ticks(events[i..n]) > t {
      j := TickAt(events[..n], i, t);
      assert events[..n][i..j] == events[i..j];
    } else {
      j := n;
    }
  }

  // No packet of the conversation comes, and every tick finds it timed out.
  predicate Idle(events: seq<Event>, i: nat, k: FiveTuple, track: Track) {
    forall j | i <= j < |events| :: Spares(events[j], k) && (events[j].TickEvent? ==> TimedOut(track, events[j].now))
  }

  // It leaves at event j with exactly that history.
  ghost predicate LeavesAs(states: seq<Sensor>, events: seq<Event>, cfg: Config, j: nat, k: FiveTuple, track: Track)
    requires j < |events| < |states|
  {
    k in states[j].table.tracks && Grown(states[j], cfg, events[j], k) == track && Leaves(states, events, cfg, j, k)
  }

  // As long as it lives on, an idle flow is unchanged; and when it leaves, it does
  // so with the packets it had.
  lemma {:induction false} IdleUpTo(states: seq<Sensor>, events: seq<Event>, cfg: Config, i: nat, n: nat, k: FiveTuple)
    returns (left: bool, j: nat)
    requires cfg.limits.Ok() && Pipeline.IsRun(states, events, cfg) && i <= n <= |events| && k in states[i].table.tracks
    requires Idle(events, i, k, states[i].table.tracks[k])
    ensures !left ==> k in states[n].table.tracks && states[n].table.tracks[k] == states[i].table.tracks[k]
    ensures left ==> i <= j < n && LeavesAs(states, events, cfg, j, k, states[i].table.tracks[k])
    decreases n - i
  {
    hide Pipeline.IsRun, Inv, Step, Ends, Discarded;
    RunShape(states, events, cfg);
    if i == n {
      left, j := false, i;
    } else {
      left, j := IdleUpTo(states, events, cfg, i, n - 1, k);
      if !left {
        RunStep(states, events, cfg, n - 1);
        StepFate(states[n - 1], cfg, events[n - 1], states[n], k);
        left, j := !Stays(states[n - 1], states[n], k, states[i].table.tracks[k]), n - 1;
      }
    }
  }

  lemma {:induction false} CursorInRange(cursor: nat, buckets: nat, ticks: nat)
    requires cursor < buckets
    ensures Sweep.CursorAfter(cursor, buckets, ticks) < buckets
  {
  }

  lemma RunCursor(states: seq<Sensor>, events: seq<Event>, cfg: Config, i: nat)
    requires cfg.limits.Ok() && Pipeline.IsRun(states, events, cfg) && i <= |events|
    ensures states[i].table.flowCursor < cfg.limits.flowBuckets
  {
    hide Inv, Step, Sweep.CursorAfter;
    CursorByTicks(states, events, cfg, 0, i);
    CursorInRange(0, cfg.limits.flowBuckets, Ticks(events[0..i]));
  }

  lemma {:induction false} TicksGrow(events: seq<Event>, i: nat, j: nat, n: nat)
    requires i <= j <= n <= |events|
    ensures Ticks(events[i..j]) <= Ticks(events[i..n])
    decreases n - j
  {
    if j < n {
      TicksGrow(events, i, j, n - 1);
      assert events[i..n][..n - i - 1] == events[i..n - 1];
    }
  }

  lemma SweptLeaves(states: seq<Sensor>, events: seq<Event>, cfg: Config, j: nat, k: FiveTuple)
    requires j < |events| < |states| && Inv(states[j].table, cfg.limits) && Step(states[j], cfg, events[j], states[j + 1])
    requires events[j].TickEvent? && k in states[j].table.tracks && TimedOut(states[j].table.tracks[k], events[j].now)
    requires Sweep.Visited(states[j].table.flowCursor, cfg.limits.flowBuckets, FlowBucket(k, cfg.limits))
    ensures LeavesAs(states, events, cfg, j, k, states[j].table.tracks[k])
  {
    hide OnTick, Sweep.Visited;
    TickFate(states[j], cfg, events[j].ds, events[j].now, states[j + 1], k);
  }

  /** An idle flow is decided within eleven ticks: by then it has ended as it was,
      submitted once if it qualifies, or been discarded with its source. */
  lemma IdleFlowIsDecided(states: seq<Sensor>, events: seq<Event>, cfg: Config, i: nat, k: FiveTuple)
    requires cfg.limits.Ok() && Pipeline.IsRun(states, events, cfg) && i <= |events| && k in states[i].table.tracks
    requires Idle(events, i, k, states[i].table.tracks[k]) && Ticks(events[i..]) >= 11
    ensures exists j: nat ::
              i <= j < |events| && Ticks(events[i..j]) < 11 && LeavesAs(states, events, cfg, j, k, states[i].table.tracks[k])
  {
    hide Pipeline.IsRun, Inv, Step, LeavesAs, Sweep.Visited, Sweep.CursorAfter, Ticks;
    RunShape(states, events, cfg);
    var b, cursor := FlowBucket(k, cfg.limits), states[i].table.flowCursor;
    RunCursor(states, events, cfg, i);
    Sweep.ElevenTicksCover(cursor, cfg.limits.flowBuckets, b);
    var t: nat :| t < 11 && Sweep.Visited(Sweep.CursorAfter(cursor, cfg.limits.flowBuckets, t), cfg.limits.flowBuckets, b);
    var at := TickAt(events, i, t);
    var left, j := IdleUpTo(states, events, cfg, i, at, k);
    if left {
      TicksGrow(events, i, j, at);
    } else {
      j := at;
      CursorByTicks(states, events, cfg, i, at);
      RunStep(states, events, cfg, at);
      SweptLeaves(states, events, cfg, at, k);
    }
  }
}
