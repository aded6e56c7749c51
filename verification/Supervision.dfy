/** The restart state machine around the model server: timers, a restart budget
    with growing delays, and one handled failure for each attempt. */
module Supervision {
  import opened Common

  datatype AiState = Disabled | Starting | Online | RestartWait | Offline | Stopping

  datatype Settings = Settings(enabled: bool, maxRestarts: nat)

  // Which timers are running.
  datatype Timers = Timers(startup: bool, restart: bool, stable: bool)

  datatype Supervisor = Supervisor(
    state: AiState, timers: Timers, attempts: nat, restarts: nat, handled: bool, stopped: bool, model: string,
    running: bool)

  // What the outside of the supervisor sees: calls of its two handlers, restart
  // delays, and launches of the server.
  datatype Effect = Ready(model: string, reached: bool) | Show(state: AiState) | Arm(delay: nat) | Launch

  // The ready handler returns, or throws before or after it reached the client.
  datatype ReadyOutcome = Accepted | Threw(reached: bool)

  // What the outside answers during one event: whether the paths are safe, the
  // stale socket is gone, and a terminated server dies within the time allowed.
  datatype Answers = Answers(pathsOk: bool, socketGone: bool, ready: ReadyOutcome, dies: bool)

  // Output carries, for each line, the model version it announces, if any.
  datatype Event =
    | Start | StartupTimeout | RestartTimeout | StableTimeout | Output(lines: seq<Option<string>>)
    | ProcessError(dead: bool) | Finished(lines: seq<Option<string>>) | ReportFailure | Stop

  datatype Outcome = Outcome(s: Supervisor, effects: seq<Effect>) {
    // What was seen before, followed by this.
    function After(before: seq<Effect>): (r: Outcome) {
      Outcome(s, before + effects)
    }
  }

  function Initial(): (r: Supervisor) {
    Supervisor(Disabled, Timers(false, false, false), 0, 0, false, false, "", false)
  }

  function Min(a: int, b: int): (r: int) {
    if a < b then a else b
  }

  function PowerOfTwo(n: nat): (r: nat) {
    if n == 0 then 1 else 2 * PowerOfTwo(n - 1)
  }

  /** One second, two, and then four for ever. */
  function Delay(attempts: nat): (ms: nat)
    ensures ms == if attempts == 0 then 1000 else if attempts == 1 then 2000 else 4000
  {
    assert PowerOfTwo(0) == 1 && PowerOfTwo(1) == 2 && PowerOfTwo(2) == 4;
    Min(1000 * PowerOfTwo(Min(attempts, 2)), 4000)
  }

  // A failure of the present attempt; later ones of the same attempt do nothing.
  function Fail(c: Settings, s: Supervisor, dies: bool): (r: Outcome) {
    if s.stopped || s.state.Stopping? || s.handled then Outcome(s, [])
    else
      var again := s.attempts < c.maxRestarts;
      var s' := s.(state := if again then RestartWait else Offline, timers := Timers(false, s.timers.restart || again, false),
                   handled := true, model := "", running := s.running && !dies);
      Outcome(s', [Show(s'.state)] + if again then [Arm(Delay(s.attempts))] else [])
  }

  function Attempt(c: Settings, s: Supervisor, e: Answers): (r: Outcome) {
    if s.stopped then Outcome(s, [])
    else
      var s1 := s.(state := Starting, handled := false, model := "");
      if !e.pathsOk || !e.socketGone then Fail(c, s1, e.dies).After([Show(Starting)])
      else Outcome(s1.(timers := s1.timers.(startup := true), running := true), [Show(Starting), Launch])
  }

  function Begin(c: Settings, s: Supervisor, e: Answers): (r: Outcome) {
    if s.stopped || s.state.Starting? || s.state.Online? || s.state.RestartWait? then Outcome(s, [])
    else if !c.enabled then Outcome(s.(state := Disabled), [Show(Disabled)])
    else Attempt(c, s.(attempts := 0), e)
  }

  // One line of output: only a ready line, and only while starting, has an effect.
  function HandleLine(c: Settings, s: Supervisor, version: Option<string>, e: Answers): (r: Outcome) {
    if !s.state.Starting? || version.None? || version.value == "" then Outcome(s, [])
    else
      var s1 := s.(timers := s.timers.(startup := false), model := version.value);
      match e.ready
      case Threw(reached) => Fail(c, s1, e.dies).After([Ready(version.value, reached)])
      case Accepted =>
        Outcome(s1.(state := Online, timers := s1.timers.(stable := true)), [Ready(version.value, true), Show(Online)])
  }

  function Feed(c: Settings, s: Supervisor, lines: seq<Option<string>>, e: Answers): (r: Outcome)
    decreases |lines|
  {
    if lines == [] then Outcome(s, [])
    else
      var first := HandleLine(c, s, lines[0], e);
      Feed(c, first.s, lines[1..], e).After(first.effects)
  }

  function End(c: Settings, s: Supervisor, lines: seq<Option<string>>, e: Answers): (r: Outcome) {
    var fed := Feed(c, s.(running := false), lines, e);
    if fed.s.state.Stopping? then fed else Fail(c, fed.s, e.dies).After(fed.effects)
  }

  function Shut(s: Supervisor, dies: bool): (r: Outcome) {
    if s.stopped then Outcome(s, [])
    else
      Outcome(s.(state := Stopping, timers := Timers(false, false, false), stopped := true, running := s.running && !dies),
              [Show(Stopping)])
  }

  // A timer fires only while it runs; output and exits come from a server.
  predicate Enabled(s: Supervisor, ev: Event) {
    match ev
    case StartupTimeout => s.timers.startup
    case RestartTimeout => s.timers.restart
    case StableTimeout => s.timers.stable
    case Output(_) | ProcessError(_) | Finished(_) => s.running
    case _ => true
  }

  function Step(c: Settings, s: Supervisor, ev: Event, e: Answers): (r: Outcome)
    requires Enabled(s, ev)
  {
    match ev
    case Start => Begin(c, s, e)
    case StartupTimeout => Fail(c, s.(timers := s.timers.(startup := false)), e.dies)
    case RestartTimeout =>
      Attempt(c, s.(timers := s.timers.(restart := false), attempts := s.attempts + 1, restarts := s.restarts + 1), e)
    case StableTimeout => Outcome(s.(timers := s.timers.(stable := false), attempts := 0), [])
    case Output(lines) => Feed(c, s, lines, e)
    case ProcessError(dead) => Fail(c, s.(running := !dead), e.dies)
    case Finished(lines) => End(c, s, lines, e)
    case ReportFailure => if s.state.Online? then Fail(c, s, e.dies) else Outcome(s, [])
    case Stop => Shut(s, e.dies)
  }

  // ---- invariant ----

  /** No state is a trap: starting and waiting each have exactly their timer
      running, a failure is recorded exactly in the two states after one, and
      offline means the budget is spent. */
  predicate Inv(c: Settings, s: Supervisor) {
    && (s.timers.startup <==> s.state.Starting?)
    && (s.timers.restart <==> s.state.RestartWait?)
    && (s.timers.stable ==> s.state.Online?)
    && (s.stopped <==> s.state.Stopping?)
    && (s.state.Starting? || s.state.Online? || s.state.Disabled? ==> !s.handled)
    && (s.state.RestartWait? || s.state.Offline? ==> s.handled)
    && s.attempts <= c.maxRestarts
    && (s.state.RestartWait? ==> s.attempts < c.maxRestarts)
    && (s.state.Offline? ==> s.attempts == c.maxRestarts)
    && (s.state.Disabled? ==> !s.running)
    && (!c.enabled ==> s.state.Disabled? || s.state.Stopping?)
    && (s.state.Online? ==> s.model != "")
    && (s.model != "" ==> s.state.Online? || s.state.Stopping?)
  }

  lemma FeedKeepsInv(c: Settings, s: Supervisor, lines: seq<Option<string>>, e: Answers)
    requires Inv(c, s)
    ensures Inv(c, Feed(c, s, lines, e).s)
    ensures Feed(c, s, lines, e).s.state.Disabled? ==> s.state.Disabled?
    decreases |lines|
  {
    if lines != [] {
      FeedKeepsInv(c, HandleLine(c, s, lines[0], e).s, lines[1..], e);
    }
  }

  lemma FailKeepsInv(c: Settings, s: Supervisor, dies: bool)
    requires s.attempts <= c.maxRestarts && (s.stopped <==> s.state.Stopping?)
    requires if s.stopped || s.handled then Inv(c, s) else c.enabled && !s.timers.restart
    ensures Inv(c, Fail(c, s, dies).s)
  {
    hide Delay;
  }

  lemma StepKeepsInv(c: Settings, s: Supervisor, ev: Event, e: Answers)
    requires Inv(c, s) && Enabled(s, ev)
    ensures Inv(c, Step(c, s, ev, e).s)
  {
    hide Delay, Feed, Fail;
    match ev {
      case Start =>
        if c.enabled && (s.state.Disabled? || s.state.Offline?) {
          FailKeepsInv(c, s.(attempts := 0, state := Starting, handled := false, model := ""), e.dies);
        }
      case StartupTimeout => FailKeepsInv(c, s.(timers := s.timers.(startup := false)), e.dies);
      case RestartTimeout =>
        FailKeepsInv(c, s.(timers := s.timers.(restart := false), attempts := s.attempts + 1, restarts := s.restarts + 1,
                           state := Starting, handled := false, model := ""), e.dies);
      case Output(lines) => FeedKeepsInv(c, s, lines, e);
      case ProcessError(dead) => FailKeepsInv(c, s.(running := !dead), e.dies);
      case Finished(lines) =>
        FeedKeepsInv(c, s.(running := false), lines, e);
        FailKeepsInv(c, Feed(c, s.(running := false), lines, e).s, e.dies);
      case ReportFailure =>
        if s.state.Online? {
          FailKeepsInv(c, s, e.dies);
        }
      case _ =>
    }
  }

  // Lines that arrive outside the starting state are only logged.
  lemma {:induction false} FeedInert(c: Settings, s: Supervisor, lines: seq<Option<string>>, e: Answers)
    requires !s.state.Starting?
    ensures Feed(c, s, lines, e) == Outcome(s, [])
  {
    if lines != [] {
      FeedInert(c, s, lines[1..], e);
    }
  }

  /** Only the first ready line of an attempt counts, whatever surrounds it. */
  lemma {:induction false} FirstReadyLineCounts(c: Settings, s: Supervisor, lines: seq<Option<string>>, e: Answers, k: nat)
    requires Inv(c, s) && s.state.Starting? && k < |lines|
    requires lines[k].Some? && lines[k].value != ""
    requires forall i | 0 <= i < k :: lines[i].None? || lines[i].value == ""
    ensures Feed(c, s, lines, e) == HandleLine(c, s, lines[k], e)
  {
    if k == 0 {
      FeedInert(c, HandleLine(c, s, lines[0], e).s, lines[1..], e);
    } else {
      FirstReadyLineCounts(c, s, lines[1..], e, k - 1);
      assert HandleLine(c, s, lines[0], e) == Outcome(s, []);
    }
  }

  // ---- runs ----

  datatype Occurrence = Occurrence(event: Event, answers: Answers)

  predicate IsRun(c: Settings, s: Supervisor, os: seq<Occurrence>)
    decreases |os|
  {
    os == [] || (Enabled(s, os[0].event) && IsRun(c, Step(c, s, os[0].event, os[0].answers).s, os[1..]))
  }

  function Run(c: Settings, s: Supervisor, os: seq<Occurrence>): (r: Outcome)
    requires IsRun(c, s, os)
    decreases |os|
  {
    if os == [] then Outcome(s, [])
    else
      var first := Step(c, s, os[0].event, os[0].answers);
      Run(c, first.s, os[1..]).After(first.effects)
  }

  lemma {:induction false} RunKeepsInv(c: Settings, s: Supervisor, os: seq<Occurrence>)
    requires Inv(c, s) && IsRun(c, s, os)
    ensures Inv(c, Run(c, s, os).s)
    decreases |os|
  {
    hide Inv, Step;
    if os != [] {
      StepKeepsInv(c, s, os[0].event, os[0].answers);
      RunKeepsInv(c, Step(c, s, os[0].event, os[0].answers).s, os[1..]);
    }
  }

  lemma StoppingStays(c: Settings, s: Supervisor, ev: Event, e: Answers)
    requires Inv(c, s) && s.stopped && Enabled(s, ev)
    ensures var r := Step(c, s, ev, e); r.s.stopped && r.effects == []
  {
    match ev {
      case Output(lines) => FeedInert(c, s, lines, e);
      case Finished(lines) => FeedInert(c, s.(running := false), lines, e);
      case _ =>
    }
  }

  /** Once stopping, always stopping, and nothing is heard of the supervisor again. */
  lemma {:induction false} StoppingIsFinal(c: Settings, s: Supervisor, os: seq<Occurrence>)
    requires Inv(c, s) && s.stopped && IsRun(c, s, os)
    ensures var r := Run(c, s, os); r.s.state.Stopping? && r.effects == []
    decreases |os|
  {
    if os != [] {
      var o := os[0];
      var first := Step(c, s, o.event, o.answers);
      StoppingStays(c, s, o.event, o.answers);
      StepKeepsInv(c, s, o.event, o.answers);
      StoppingIsFinal(c, first.s, os[1..]);
    }
  }

  function RestartTimeouts(os: seq<Occurrence>): (r: nat) {
    if os == [] then 0 else (if os[0].event.RestartTimeout? then 1 else 0) + RestartTimeouts(os[1..])
  }

  lemma {:induction false} FeedKeepsRestarts(c: Settings, s: Supervisor, lines: seq<Option<string>>, e: Answers)
    ensures Feed(c, s, lines, e).s.restarts == s.restarts
    decreases |lines|
  {
    if lines != [] {
      FeedKeepsRestarts(c, HandleLine(c, s, lines[0], e).s, lines[1..], e);
    }
  }

  /** The reported number of restarts is the number of times the restart timer
      fired, over any run; no later start resets it. */
  lemma {:induction false} RestartsAreCounted(c: Settings, s: Supervisor, os: seq<Occurrence>)
    requires IsRun(c, s, os)
    ensures Run(c, s, os).s.restarts == s.restarts + RestartTimeouts(os)
    decreases |os|
  {
    if os != [] {
      var ev, e := os[0].event, os[0].answers;
      match ev {
        case Output(lines) => FeedKeepsRestarts(c, s, lines, e);
        case Finished(lines) => FeedKeepsRestarts(c, s.(running := false), lines, e);
        case _ =>
      }
      RestartsAreCounted(c, Step(c, s, ev, e).s, os[1..]);
    }
  }

  // ---- the restart budget ----

  predicate Refills(ev: Event) {
    ev.Start? || ev.StableTimeout?
  }

  // Where the budget stands: how many failures of the present run of attempts
  // have been handled.
  function Failures(s: Supervisor): (r: nat) {
    if s.handled then s.attempts + 1 else s.attempts
  }

  function Delays(es: seq<Effect>): (r: seq<nat>) {
    if es == [] then [] else (if es[0].Arm? then [es[0].delay] else []) + Delays(es[1..])
  }

  function Launches(es: seq<Effect>): (r: nat) {
    if es == [] then 0 else (if es[0].Launch? then 1 else 0) + Launches(es[1..])
  }

  // The delays before the restarts numbered from and on.
  function Schedule(from: nat, upTo: nat): (r: seq<nat>)
    decreases upTo - from
  {
    if from >= upTo then [] else [Delay(from)] + Schedule(from + 1, upTo)
  }

  lemma {:induction false} DelaysAppend(a: seq<Effect>, b: seq<Effect>)
    ensures Delays(a + b) == Delays(a) + Delays(b)
    ensures Launches(a + b) == Launches(a) + Launches(b)
  {
    if a == [] {
      assert a + b == b;
    } else {
      DelaysAppend(a[1..], b);
      assert (a + b)[1..] == a[1..] + b;
      Regroup(if a[0].Arm? then [a[0].delay] else [], Delays(a[1..]), Delays(b));
    }
  }

  lemma {:induction false} ScheduleAppends(from: nat, mid: nat, upTo: nat)
    requires from <= mid <= upTo
    ensures Schedule(from, upTo) == Schedule(from, mid) + Schedule(mid, upTo)
    decreases mid - from
  {
    if from < mid {
      ScheduleAppends(from + 1, mid, upTo);
    }
  }

  function Spent(c: Settings, s: Supervisor): (r: nat) {
    Min(Failures(s), c.maxRestarts)
  }

  // What one event does to the budget.
  predicate Pays(c: Settings, s: Supervisor, r: Outcome) {
    && Spent(c, s) <= Spent(c, r.s)
    && Delays(r.effects) == Schedule(Spent(c, s), Spent(c, r.s))
    && s.attempts <= r.s.attempts
    && Launches(r.effects) <= r.s.attempts - s.attempts
  }

  lemma FailPays(c: Settings, s: Supervisor, dies: bool)
    requires s.attempts <= c.maxRestarts
    ensures Pays(c, s, Fail(c, s, dies))
    ensures Fail(c, s, dies).s.attempts == s.attempts && Launches(Fail(c, s, dies).effects) == 0
  {
    hide Delay;
    var r := Fail(c, s, dies);
    if r.effects != [] && s.attempts < c.maxRestarts {
      var d := Delay(s.attempts);
      DelaysAppend([Show(RestartWait)], [Arm(d)]);
      assert Delays([Arm(d)]) == [d] + Delays([Arm(d)][1..]) && Delays([Show(RestartWait)]) == [];
      assert Launches([Arm(d)]) == 0 && Launches([Show(RestartWait)]) == 0;
      assert Spent(c, s) == s.attempts && Spent(c, r.s) == s.attempts + 1;
      assert Schedule(s.attempts, s.attempts + 1) == [Delay(s.attempts)] + Schedule(s.attempts + 1, s.attempts + 1);
    } else if r.effects != [] {
      assert r.effects == [Show(Offline)];
      assert Delays([Show(Offline)]) == [] && Launches([Show(Offline)]) == 0;
    }
  }

  lemma {:induction false} PaysAfter(c: Settings, s: Supervisor, first: Outcome, second: Outcome)
    requires Pays(c, s, first) && Pays(c, first.s, second)
    ensures Pays(c, s, second.After(first.effects))
  {
    DelaysAppend(first.effects, second.effects);
    ScheduleAppends(Spent(c, s), Spent(c, first.s), Spent(c, second.s));
  }

  lemma PaysNothing(c: Settings, s: Supervisor)
    ensures Pays(c, s, Outcome(s, []))
  {
  }

  // Only the attempts made and the failure flag matter to what a failure costs.
  lemma FailurePays(c: Settings, s: Supervisor, failing: Supervisor, dies: bool)
    requires s.attempts <= c.maxRestarts && failing.attempts == s.attempts && failing.handled == s.handled
    ensures Pays(c, s, Fail(c, failing, dies))
  {
    hide Fail, Delays, Launches, Schedule;
    FailPays(c, failing, dies);
  }

  // Telling a handler something costs nothing.
  lemma TellingPays(c: Settings, s: Supervisor, s': Supervisor, e: Effect)
    requires s'.attempts == s.attempts && s'.handled == s.handled && !e.Arm? && !e.Launch?
    ensures Pays(c, s, Outcome(s', [e]))
  {
    assert [e][1..] == [];
  }

  lemma LinePays(c: Settings, s: Supervisor, version: Option<string>, e: Answers)
    requires Inv(c, s)
    ensures Pays(c, s, HandleLine(c, s, version, e))
  {
    hide Pays, Fail;
    PaysNothing(c, s);
    if s.state.Starting? && version.Some? && version.value != "" {
      var s1 := s.(timers := s.timers.(startup := false), model := version.value);
      var tell := Ready(version.value, e.ready.Accepted? || e.ready.reached);
      var told := Outcome(s1, [tell]);
      TellingPays(c, s, s1, tell);
      match e.ready {
        case Threw(reached) =>
          FailurePays(c, s1, s1, e.dies);
          PaysAfter(c, s, told, Fail(c, s1, e.dies));
        case Accepted =>
          var s2 := s1.(state := Online, timers := s1.timers.(stable := true));
          TellingPays(c, s1, s2, Show(Online));
          PaysAfter(c, s, told, Outcome(s2, [Show(Online)]));
          assert [tell] + [Show(Online)] == [tell, Show(Online)];
      }
    }
  }

  lemma {:induction false} FeedPays(c: Settings, s: Supervisor, lines: seq<Option<string>>, e: Answers)
    requires Inv(c, s)
    ensures Pays(c, s, Feed(c, s, lines, e))
    decreases |lines|
  {
    if lines != [] {
      var first := HandleLine(c, s, lines[0], e);
      LinePays(c, s, lines[0], e);
      FeedKeepsInv(c, s, [lines[0]], e);
      assert Feed(c, s, [lines[0]], e).s == first.s;
      FeedPays(c, first.s, lines[1..], e);
      PaysAfter(c, s, first, Feed(c, first.s, lines[1..], e));
    }
  }

  lemma EndPays(c: Settings, s: Supervisor, lines: seq<Option<string>>, e: Answers)
    requires Inv(c, s) && s.running
    ensures Pays(c, s, End(c, s, lines, e))
  {
    hide Fail, Feed, Delays, Launches, Schedule;
    var s0 := s.(running := false);
    var fed := Feed(c, s0, lines, e);
    FeedPays(c, s0, lines, e);
    FeedKeepsInv(c, s0, lines, e);
    FailPays(c, fed.s, e.dies);
    assert Pays(c, s, fed);
    PaysAfter(c, s, fed, Fail(c, fed.s, e.dies));
  }

  lemma ShutPays(c: Settings, s: Supervisor, dies: bool)
    ensures Pays(c, s, Shut(s, dies))
  {
    assert Delays([Show(Stopping)]) == [] && Launches([Show(Stopping)]) == 0;
  }

  lemma RestartPays(c: Settings, s: Supervisor, e: Answers)
    requires Inv(c, s) && s.timers.restart
    ensures Pays(c, s, Step(c, s, RestartTimeout, e))
  {
    hide Delay;
    var s1 := s.(timers := s.timers.(restart := false), attempts := s.attempts + 1, restarts := s.restarts + 1,
                 state := Starting, handled := false, model := "");
    FailPays(c, s1, e.dies);
    DelaysAppend([Show(Starting)], Fail(c, s1, e.dies).effects);
    assert Launches([Show(Starting), Launch]) == 1 + Launches([Show(Starting), Launch][1..][1..]);
  }

  lemma StepPays(c: Settings, s: Supervisor, ev: Event, e: Answers)
    requires Inv(c, s) && Enabled(s, ev) && !Refills(ev)
    ensures Pays(c, s, Step(c, s, ev, e))
  {
    hide Pays, Fail, Feed, Attempt, End, Shut;
    match ev {
      case StartupTimeout => FailurePays(c, s, s.(timers := s.timers.(startup := false)), e.dies);
      case RestartTimeout => RestartPays(c, s, e);
      case Output(lines) => FeedPays(c, s, lines, e);
      case ProcessError(dead) => FailurePays(c, s, s.(running := !dead), e.dies);
      case Finished(lines) => EndPays(c, s, lines, e);
      case ReportFailure =>
        FailurePays(c, s, s, e.dies);
        PaysNothing(c, s);
      case Stop => ShutPays(c, s, e.dies);
    }
  }

  lemma {:induction false} RunPays(c: Settings, s: Supervisor, os: seq<Occurrence>)
    requires Inv(c, s) && IsRun(c, s, os) && forall o | o in os :: !Refills(o.event)
    ensures Pays(c, s, Run(c, s, os))
    decreases |os|
  {
    hide Inv, Step, Pays;
    if os != [] {
      var first := Step(c, s, os[0].event, os[0].answers);
      StepKeepsInv(c, s, os[0].event, os[0].answers);
      StepPays(c, s, os[0].event, os[0].answers);
      RunPays(c, first.s, os[1..]);
      PaysAfter(c, s, first, Run(c, first.s, os[1..]));
    } else {
      PaysNothing(c, s);
    }
  }

  lemma StartPays(c: Settings, s: Supervisor, e: Answers)
    requires Inv(c, s) && c.enabled && (s.state.Disabled? || s.state.Offline?)
    ensures var first := Begin(c, s, e);
            && Delays(first.effects) == Schedule(0, Spent(c, first.s)) && Launches(first.effects) <= 1 && first.s.attempts == 0
  {
    hide Delay;
    var s0 := s.(attempts := 0, state := Starting, handled := false, model := "");
    FailPays(c, s0, e.dies);
    DelaysAppend([Show(Starting)], Fail(c, s0, e.dies).effects);
    assert Launches([Show(Starting), Launch]) == 1 + Launches([Show(Starting), Launch][1..][1..]);
  }

  lemma {:induction false} ScheduleLength(from: nat, upTo: nat)
    requires from <= upTo
    ensures |Schedule(from, upTo)| == upTo - from
    ensures forall i :: 0 <= i < upTo - from ==> Schedule(from, upTo)[i] == Delay(from + i)
    decreases upTo - from
  {
    if from < upTo {
      ScheduleLength(from + 1, upTo);
    }
  }

  /** From an accepted start, as long as the server is never up for long enough to
      refill the budget and nobody starts it again: at most maxRestarts + 1
      launches, with delays 1000, 2000, 4000, 4000, ... in between, and the
      supervisor gives up only after the whole schedule. */
  lemma BudgetFromStart(c: Settings, s: Supervisor, e: Answers, os: seq<Occurrence>)
    requires Inv(c, s) && c.enabled && (s.state.Disabled? || s.state.Offline?)
    requires var first := Begin(c, s, e); IsRun(c, first.s, os)
    requires forall o | o in os :: !Refills(o.event)
    ensures var first := Begin(c, s, e);
            var r := Run(c, first.s, os).After(first.effects);
            && Launches(r.effects) <= c.maxRestarts + 1
            && Delays(r.effects) == Schedule(0, |Delays(r.effects)|)
            && |Delays(r.effects)| <= c.maxRestarts
            && (r.s.state.Offline? ==> |Delays(r.effects)| == c.maxRestarts)
  {
    var first := Begin(c, s, e);
    StepKeepsInv(c, s, Start, e);
    StartPays(c, s, e);
    hide Begin, Attempt, Schedule, Delay, Launches, Delays;
    var r := Run(c, first.s, os);
    RunPays(c, first.s, os);
    RunKeepsInv(c, first.s, os);
    DelaysAppend(first.effects, r.effects);
    ScheduleAppends(0, Spent(c, first.s), Spent(c, r.s));
    ScheduleLength(0, Spent(c, r.s));
  }

  // How far the supervisor is from giving up: attempts left, then the stage of
  // the present one.
  function Measure(c: Settings, s: Supervisor): (r: int) {
    var stage := match s.state
      case Starting => 3
      case Online => 2
      case RestartWait => 1
      case _ => 0;
    if s.stopped then -1 else 4 * (c.maxRestarts - s.attempts) + stage
  }

  lemma {:induction false} FeedCosts(c: Settings, s: Supervisor, lines: seq<Option<string>>, e: Answers)
    requires Inv(c, s)
    ensures var r := Feed(c, s, lines, e);
            && Inv(c, r.s)
            && ((r.s.state == s.state && r.s.attempts == s.attempts) || Measure(c, r.s) < Measure(c, s))
    decreases |lines|
  {
    if lines != [] {
      FeedCosts(c, HandleLine(c, s, lines[0], e).s, lines[1..], e);
    }
  }

  /** Without a refill every change of state is a step towards giving up. */
  lemma EveryChangeCostsBudget(c: Settings, s: Supervisor, ev: Event, e: Answers)
    requires Inv(c, s) && Enabled(s, ev) && !Refills(ev)
    ensures var s' := Step(c, s, ev, e).s;
            || (s'.state == s.state && s'.attempts == s.attempts)
            || Measure(c, s') < Measure(c, s)
  {
    match ev {
      case Output(lines) => FeedCosts(c, s, lines, e);
      case Finished(lines) => FeedCosts(c, s.(running := false), lines, e);
      case _ =>
    }
  }

  /** A supervisor that is starting or waiting always has a timer running, and when
      that fires it is nearer to giving up. */
  lemma NeverWedged(c: Settings, s: Supervisor, e: Answers)
    requires Inv(c, s) && (s.state.Starting? || s.state.RestartWait?)
    ensures var ev := if s.state.Starting? then StartupTimeout else RestartTimeout;
            Enabled(s, ev) && Measure(c, Step(c, s, ev, e).s) < Measure(c, s)
  {
  }
}
