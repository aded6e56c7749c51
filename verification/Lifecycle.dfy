/** The supervisor wired to the client. GUI events run one at a time, but the calls
    they make into the client interleave with the capture and worker threads. */
module Lifecycle {
  import opened Common
  import Pipeline
  import opened AiProtocol
  import opened Supervision

  datatype Setup = Setup(settings: Settings, endpoint: string)

  // What the GUI thread still has to do for the event at hand.
  datatype Todo = Tell(e: Effect) | StopClient | Join | StopSupervisor(answers: Answers)

  // posted holds, for each transport failure waiting for the GUI thread, the
  // generation that failed; failing is the one the worker is about to report.
  datatype App = App(client: Client, sup: Supervisor, todo: seq<Todo>, posted: seq<nat>, failing: nat, stopping: bool)

  datatype Move =
    | Work(action: Action)
    | Gui(event: Event, answers: Answers)
    | Proceed
    | Deliver(answers: Answers)
    | Shutdown(answers: Answers)

  function NewApp(capacity: nat): (r: App) {
    App(AiProtocol.Fresh(capacity), Initial(), [], [], 0, false)
  }

  // The connection is switched on and off by the GUI thread only.
  predicate IsSwitch(a: Action) {
    a.SetOnline? || a.SetOffline? || a.Stop?
  }

  predicate Possible(c: Setup, p: App, m: Move) {
    match m
    case Work(a) => !IsSwitch(a) && AiProtocol.Enabled(p.client, a)
    case Gui(ev, _) => p.todo == [] && !ev.ReportFailure? && !ev.Stop? && Supervision.Enabled(p.sup, ev)
    case Proceed => p.todo != [] && (p.todo[0].Join? ==> p.client.w.phase.NotStarted? || p.client.w.phase.Exited?)
    case Deliver(_) => p.todo == [] && p.posted != []
    case Shutdown(_) => p.todo == []
  }

  function Tells(es: seq<Effect>): (r: seq<Todo>) {
    seq(|es|, i requires 0 <= i < |es| => Tell(es[i]))
  }

  // What telling one effect does to the client.
  function Told(c: Setup, client: Client, e: Effect): (r: Client) {
    match e
    case Ready(model, reached) => if reached then NextOutside(client, SetOnline(Link(c.endpoint, model))) else client
    case Show(state) => if state.Online? then client else NextOutside(client, SetOffline)
    case _ => client
  }

  function Handle(c: Setup, p: App, ev: Event, e: Answers): (r: App)
    requires Supervision.Enabled(p.sup, ev)
  {
    var r := Supervision.Step(c.settings, p.sup, ev, e);
    p.(sup := r.s, todo := Tells(r.effects) + p.todo)
  }

  function Worked(p: App, a: Action): (r: App)
    requires AiProtocol.Enabled(p.client, a)
  {
    p.(client := AiProtocol.Next(p.client, a),
       failing := if a.FailTransport? && p.client.w.job.Some? then p.client.w.job.value.t.gen else p.failing,
       posted := if a.Notify? then p.posted + [p.failing] else p.posted)
  }

  function Proceeded(c: Setup, p: App): (r: App)
    requires Possible(c, p, Proceed)
  {
    var rest := p.(todo := p.todo[1..]);
    match p.todo[0]
    case Tell(e) => rest.(client := Told(c, p.client, e))
    case StopClient => rest.(client := NextOutside(p.client, Action.Stop))
    case Join => rest
    case StopSupervisor(answers) => Handle(c, rest, Event.Stop, answers)
  }

  function Delivered(c: Setup, p: App, e: Answers): (r: App)
    requires p.posted != []
  {
    var rest := p.(posted := p.posted[1..]);
    if p.stopping then rest else Handle(c, rest, ReportFailure, e)
  }

  function Move1(c: Setup, p: App, m: Move): (r: App)
    requires Possible(c, p, m)
  {
    match m
    case Work(a) => Worked(p, a)
    case Gui(ev, e) => Handle(c, p, ev, e)
    case Proceed => Proceeded(c, p)
    case Deliver(e) => Delivered(c, p, e)
    case Shutdown(e) =>
      if p.stopping then p else p.(stopping := true, todo := [StopClient, Join, StopSupervisor(e)])
  }

  // ---- the model the client will have once the GUI thread is done ----

  function Model(client: Client): (r: Option<string>) {
    if client.m.online then Some(client.m.link.model) else None
  }

  function AfterTell(e: Effect, model: Option<string>): (r: Option<string>) {
    match e
    case Ready(m, reached) => if reached then Some(m) else model
    case Show(state) => if state.Online? then model else None
    case _ => model
  }

  function After(todo: seq<Todo>, model: Option<string>): (r: Option<string>)
    decreases |todo|
  {
    if todo == [] then model
    else
      match todo[0]
      case Tell(e) => After(todo[1..], AfterTell(e, model))
      case StopClient => After(todo[1..], None)
      case _ => After(todo[1..], model)
  }

  predicate Agrees(sup: Supervisor, model: Option<string>) {
    model.Some? ==> sup.state.Online? && sup.model == model.value
  }

  function AfterTodo(t: Todo, model: Option<string>): (r: Option<string>) {
    match t
    case Tell(e) => AfterTell(e, model)
    case StopClient => None
    case _ => model
  }

  lemma {:induction false} AfterAppends(a: seq<Todo>, b: seq<Todo>, model: Option<string>)
    ensures After(a + b, model) == After(b, After(a, model))
    decreases |a|
  {
    if a == [] {
      assert a + b == b;
    } else {
      assert (a + b)[1..] == a[1..] + b;
      AfterAppends(a[1..], b, AfterTodo(a[0], model));
    }
  }

  // Starting offline can only lose a connection.
  lemma {:induction false} AfterOffline(todo: seq<Todo>, model: Option<string>)
    ensures After(todo, None) == None || After(todo, None) == After(todo, model)
    decreases |todo|
  {
    if todo != [] {
      match todo[0] {
        case Tell(e) =>
          AfterOffline(todo[1..], AfterTell(e, model));
        case StopClient =>
        case _ => AfterOffline(todo[1..], model);
      }
    }
  }

  lemma TellsAppend(a: seq<Effect>, b: seq<Effect>)
    ensures Tells(a + b) == Tells(a) + Tells(b)
  {
  }

  // ---- what an event tells the client ends in agreement with its new state ----

  predicate Settles(r: Outcome, model: Option<string>) {
    Agrees(r.s, After(Tells(r.effects), model))
  }

  lemma SettlesAfter(first: Outcome, second: Outcome, model: Option<string>)
    requires Settles(second, After(Tells(first.effects), model))
    ensures Settles(second.After(first.effects), model)
  {
    TellsAppend(first.effects, second.effects);
    AfterAppends(Tells(first.effects), Tells(second.effects), model);
  }

  lemma Told1(e: Effect, model: Option<string>)
    ensures After(Tells([e]), model) == AfterTell(e, model)
  {
    assert Tells([e])[1..] == [];
  }

  lemma Told2(e: Effect, f: Effect, model: Option<string>)
    ensures After(Tells([e, f]), model) == AfterTell(f, AfterTell(e, model))
  {
    assert [e, f] == [e] + [f];
    TellsAppend([e], [f]);
    AfterAppends(Tells([e]), Tells([f]), model);
    Told1(e, model);
    Told1(f, AfterTell(e, model));
  }

  // A failure leaves the client offline; one that was handled before changes nothing.
  lemma FailSettles(c: Settings, s: Supervisor, dies: bool, model: Option<string>)
    ensures var r := Fail(c, s, dies); r.effects != [] ==> After(Tells(r.effects), model) == None
    ensures Agrees(s, model) ==> Settles(Fail(c, s, dies), model)
  {
    hide Delay;
    var state := if s.attempts < c.maxRestarts then RestartWait else Offline;
    Told1(Show(state), model);
    Told2(Show(state), Arm(Delay(s.attempts)), model);
    assert [Show(state)] + [] == [Show(state)];
    assert [Show(state)] + [Arm(Delay(s.attempts))] == [Show(state), Arm(Delay(s.attempts))];
  }

  lemma FailActs(c: Settings, s: Supervisor, dies: bool)
    requires !s.stopped && !s.state.Stopping? && !s.handled
    ensures Fail(c, s, dies).effects != []
  {
  }

  lemma LineSettles(c: Settings, s: Supervisor, version: Option<string>, e: Answers, model: Option<string>)
    requires Supervision.Inv(c, s) && Agrees(s, model)
    ensures Settles(HandleLine(c, s, version, e), model)
  {
    hide Fail;
    if s.state.Starting? && version.Some? && version.value != "" {
      var s1 := s.(timers := s.timers.(startup := false), model := version.value);
      match e.ready {
        case Threw(reached) =>
          var tell := Ready(version.value, reached);
          FailActs(c, s1, e.dies);
          FailSettles(c, s1, e.dies, AfterTell(tell, model));
          Told1(tell, model);
          SettlesAfter(Outcome(s1, [tell]), Fail(c, s1, e.dies), model);
        case Accepted =>
          Told2(Ready(version.value, true), Show(Online), model);
      }
    }
  }

  lemma LineKeepsInv(c: Settings, s: Supervisor, version: Option<string>, e: Answers)
    requires Supervision.Inv(c, s)
    ensures Supervision.Inv(c, HandleLine(c, s, version, e).s)
  {
  }

  lemma {:induction false} FeedSettles(c: Settings, s: Supervisor, lines: seq<Option<string>>, e: Answers, model: Option<string>)
    requires Supervision.Inv(c, s) && Agrees(s, model)
    ensures Settles(Feed(c, s, lines, e), model)
    decreases |lines|
  {
    if lines != [] {
      var first := HandleLine(c, s, lines[0], e);
      LineKeepsInv(c, s, lines[0], e);
      LineSettles(c, s, lines[0], e, model);
      hide Supervision.Inv, HandleLine;
      FeedSettles(c, first.s, lines[1..], e, After(Tells(first.effects), model));
      SettlesAfter(first, Feed(c, first.s, lines[1..], e), model);
    }
  }

  lemma AttemptSettles(c: Settings, s: Supervisor, e: Answers, model: Option<string>)
    requires !s.stopped
    ensures Settles(Attempt(c, s, e), model)
  {
    hide Fail;
    var s1 := s.(state := Starting, handled := false, model := "");
    Told1(Show(Starting), model);
    Told2(Show(Starting), Launch, model);
    FailSettles(c, s1, e.dies, None);
    SettlesAfter(Outcome(s1, [Show(Starting)]), Fail(c, s1, e.dies), model);
  }

  lemma BeginSettles(c: Settings, s: Supervisor, e: Answers, model: Option<string>)
    requires Supervision.Inv(c, s) && Agrees(s, model)
    ensures Settles(Begin(c, s, e), model)
  {
    hide Attempt;
    if !s.stopped {
      AttemptSettles(c, s.(attempts := 0), e, model);
      Told1(Show(Disabled), model);
    }
  }

  lemma EndSettles(c: Settings, s: Supervisor, lines: seq<Option<string>>, e: Answers, model: Option<string>)
    requires Supervision.Inv(c, s) && s.running && Agrees(s, model)
    ensures Settles(End(c, s, lines, e), model)
  {
    hide Fail, Feed;
    var s0 := s.(running := false);
    var fed := Feed(c, s0, lines, e);
    FeedSettles(c, s0, lines, e, model);
    FailSettles(c, fed.s, e.dies, After(Tells(fed.effects), model));
    SettlesAfter(fed, Fail(c, fed.s, e.dies), model);
  }

  lemma StepSettles(c: Settings, s: Supervisor, ev: Event, e: Answers, model: Option<string>)
    requires Supervision.Inv(c, s) && Supervision.Enabled(s, ev) && Agrees(s, model)
    ensures Settles(Supervision.Step(c, s, ev, e), model)
  {
    hide Fail, Feed, Attempt;
    match ev {
      case Start => BeginSettles(c, s, e, model);
      case StartupTimeout => FailSettles(c, s.(timers := s.timers.(startup := false)), e.dies, model);
      case RestartTimeout =>
        AttemptSettles(c, s.(timers := s.timers.(restart := false), attempts := s.attempts + 1, restarts := s.restarts + 1), e, model);
      case StableTimeout =>
      case Output(lines) => FeedSettles(c, s, lines, e, model);
      case ProcessError(dead) => FailSettles(c, s.(running := !dead), e.dies, model);
      case Finished(lines) => EndSettles(c, s, lines, e, model);
      case ReportFailure => FailSettles(c, s, e.dies, model);
      case Stop => Told1(Show(Stopping), model);
    }
  }

  // ---- the whole application ----

  predicate AllTells(todo: seq<Todo>) {
    forall t | t in todo :: t.Tell?
  }

  // What is left of a shutdown before the supervisor is stopped.
  predicate IsShutdown(todo: seq<Todo>) {
    && 1 <= |todo| <= 3 && todo[|todo| - 1].StopSupervisor?
    && (|todo| >= 2 ==> todo[|todo| - 2].Join?)
    && (|todo| == 3 ==> todo[0].StopClient?)
  }

  predicate Orderly(p: App) {
    && (AllTells(p.todo) || (p.stopping && IsShutdown(p.todo)))
    && (p.stopping && !p.client.m.stopRequested ==> !AllTells(p.todo) && |p.todo| == 3)
    && (p.stopping && (AllTells(p.todo) || |p.todo| == 1) ==> p.client.w.phase.NotStarted? || p.client.w.phase.Exited?)
    && (p.stopping && AllTells(p.todo) ==> p.sup.stopped)
  }

  // Failures waiting to be reported are of connections that are gone.
  predicate PostedAreOld(p: App) {
    && (forall g | g in p.posted :: g < p.client.m.gen)
    && (p.client.w.phase.Notifying? ==> p.failing < p.client.m.gen)
  }

  predicate AppInv(c: Setup, p: App) {
    && AiProtocol.Inv(p.client) && Supervision.Inv(c.settings, p.sup)
    && Agrees(p.sup, After(p.todo, Model(p.client)))
    && Orderly(p) && PostedAreOld(p)
  }

  lemma NewAppIsSound(c: Setup, capacity: nat)
    ensures AppInv(c, NewApp(capacity))
  {
    FreshIsSafe(capacity);
  }

  // No thread but the GUI's brings the client online, and generations only grow.
  lemma WorkOnlyDisconnects(s: Client, a: Action)
    requires AiProtocol.Inv(s) && !IsSwitch(a) && AiProtocol.Enabled(s, a)
    ensures var s' := AiProtocol.Next(s, a);
            && (Model(s') == Model(s) || Model(s') == None)
            && s.m.gen <= s'.m.gen && s.m.stopRequested == s'.m.stopRequested
            && (s.m.stopRequested && (s.w.phase.NotStarted? || s.w.phase.Exited?) ==> s'.w.phase == s.w.phase)
            && (s'.w.phase.Notifying? && !s.w.phase.Notifying? ==>
                  a.FailTransport? && s.w.job.Some? && s.w.job.value.t.gen < s'.m.gen)
  {
    hide Genuine, Faithful, AiProtocol.Line, Conserved, GenerationSafe, Ordered;
    match GroupOf(a) {
      case Outside =>
      case Outgoing =>
      case Answering =>
      case Ending =>
    }
  }

  lemma WorkKeepsAppInv(c: Setup, p: App, a: Action)
    requires AppInv(c, p) && !IsSwitch(a) && AiProtocol.Enabled(p.client, a)
    ensures AppInv(c, Worked(p, a))
  {
    hide AiProtocol.Inv, Supervision.Inv, AiProtocol.Next, After;
    NextKeepsInv(p.client, a);
    WorkOnlyDisconnects(p.client, a);
    AfterOffline(p.todo, Model(p.client));
  }

  lemma HandleKeepsAppInv(c: Setup, p: App, ev: Event, e: Answers)
    requires AppInv(c, p) && p.todo == [] && Supervision.Enabled(p.sup, ev)
    ensures AppInv(c, Handle(c, p, ev, e))
  {
    hide AiProtocol.Inv, Supervision.Inv, Supervision.Step, Supervision.Enabled;
    var r := Supervision.Step(c.settings, p.sup, ev, e);
    StepKeepsInv(c.settings, p.sup, ev, e);
    StepSettles(c.settings, p.sup, ev, e, Model(p.client));
    if p.sup.stopped {
      StoppingStays(c.settings, p.sup, ev, e);
    }
    assert Tells(r.effects) + [] == Tells(r.effects);
    assert forall t | t in Tells(r.effects) :: t.Tell?;
  }

  lemma StoppedMeansOffline(client: Client)
    requires AiProtocol.Inv(client)
    ensures client.m.stopRequested ==> Model(client) == None
  {
  }

  // What the client does when told is what the model after telling says.
  lemma TellingFollows(c: Setup, client: Client, e: Effect)
    requires AiProtocol.Inv(client)
    ensures var client' := Told(c, client, e);
            && AiProtocol.Inv(client')
            && (Model(client') == AfterTell(e, Model(client)) || Model(client') == None)
            && client.m.gen <= client'.m.gen && client'.m.stopRequested == client.m.stopRequested
            && client'.w == client.w
  {
    hide AiProtocol.Inv;
    match e {
      case Ready(model, reached) =>
        NextKeepsInv(client, SetOnline(Link(c.endpoint, model)));
        StoppedMeansOffline(client);
      case Show(state) => NextKeepsInv(client, SetOffline);
      case _ =>
    }
  }

  lemma TellKeepsAppInv(c: Setup, p: App, e: Effect)
    requires AppInv(c, p) && p.todo != [] && p.todo[0] == Tell(e)
    ensures AppInv(c, Proceeded(c, p))
  {
    hide AiProtocol.Inv, Supervision.Inv, Told, AfterTell;
    var rest := p.todo[1..];
    TellingFollows(c, p.client, e);
    AfterOffline(rest, AfterTell(e, Model(p.client)));
    assert forall t | t in rest :: t in p.todo;
  }

  lemma StoppingDisconnects(client: Client)
    requires AiProtocol.Inv(client)
    ensures var client' := NextOutside(client, Action.Stop);
            && AiProtocol.Inv(client') && Model(client') == None && client'.m.stopRequested
            && client.m.gen <= client'.m.gen && client'.w == client.w
  {
    hide AiProtocol.Inv;
    NextKeepsInv(client, Action.Stop);
  }

  lemma StopClientKeepsAppInv(c: Setup, p: App)
    requires AppInv(c, p) && p.todo != [] && p.todo[0] == StopClient
    ensures AppInv(c, Proceeded(c, p))
  {
    hide AiProtocol.Inv, Supervision.Inv, NextOutside;
    StoppingDisconnects(p.client);
  }

  lemma StopStops(c: Settings, s: Supervisor, e: Answers)
    ensures Supervision.Step(c, s, Event.Stop, e).s.stopped
  {
  }

  lemma StopKeepsAppInv(c: Setup, p: App, e: Answers)
    requires AppInv(c, p) && p.todo == [StopSupervisor(e)]
    ensures AppInv(c, Handle(c, p.(todo := []), Event.Stop, e))
  {
    hide AiProtocol.Inv, Supervision.Inv, Supervision.Step;
    var r := Supervision.Step(c.settings, p.sup, Event.Stop, e);
    StopStops(c.settings, p.sup, e);
    StepKeepsInv(c.settings, p.sup, Event.Stop, e);
    assert After(p.todo, Model(p.client)) == Model(p.client);
    StepSettles(c.settings, p.sup, Event.Stop, e, Model(p.client));
    assert Tells(r.effects) + [] == Tells(r.effects);
    assert forall t | t in Tells(r.effects) :: t.Tell?;
  }

  lemma ProceedKeepsAppInv(c: Setup, p: App)
    requires AppInv(c, p) && Possible(c, p, Proceed)
    ensures AppInv(c, Proceeded(c, p))
  {
    hide AiProtocol.Inv, Supervision.Inv, Told, NextOutside, Handle;
    match p.todo[0] {
      case Tell(e) => TellKeepsAppInv(c, p, e);
      case StopClient => StopClientKeepsAppInv(c, p);
      case Join =>
      case StopSupervisor(e) => StopKeepsAppInv(c, p, e);
    }
  }

  lemma DeliverKeepsAppInv(c: Setup, p: App, e: Answers)
    requires AppInv(c, p) && Possible(c, p, Deliver(e))
    ensures AppInv(c, Delivered(c, p, e))
  {
    hide AiProtocol.Inv, Supervision.Inv, Handle;
    var rest := p.(posted := p.posted[1..]);
    assert forall g | g in rest.posted :: g in p.posted;
    if !p.stopping {
      HandleKeepsAppInv(c, rest, ReportFailure, e);
    }
  }

  lemma ShutdownKeepsAppInv(c: Setup, p: App, e: Answers)
    requires AppInv(c, p) && p.todo == []
    ensures AppInv(c, Move1(c, p, Shutdown(e)))
  {
    hide AiProtocol.Inv, Supervision.Inv;
    var todo := [StopClient, Join, StopSupervisor(e)];
    assert todo[1..] == [Join, StopSupervisor(e)] && todo[1..][1..] == [StopSupervisor(e)];
    assert After([StopSupervisor(e)], None) == None;
    assert After(todo[1..], None) == None;
    assert After(todo, Model(p.client)) == None;
  }

  /** Every move of every thread keeps the application's invariant. */
  lemma MoveKeepsAppInv(c: Setup, p: App, m: Move)
    requires AppInv(c, p) && Possible(c, p, m)
    ensures AppInv(c, Move1(c, p, m))
  {
    hide AiProtocol.Inv, Supervision.Inv, Worked, Proceeded, AiProtocol.Enabled, Supervision.Enabled;
    match m {
      case Work(a) => WorkKeepsAppInv(c, p, a);
      case Gui(ev, e) => HandleKeepsAppInv(c, p, ev, e);
      case Proceed => ProceedKeepsAppInv(c, p);
      case Deliver(e) => DeliverKeepsAppInv(c, p, e);
      case Shutdown(e) => ShutdownKeepsAppInv(c, p, e);
    }
  }

  ghost predicate IsAppRun(c: Setup, states: seq<App>, moves: seq<Move>) {
    && |states| == |moves| + 1
    && forall i | 0 <= i < |moves| :: Possible(c, states[i], moves[i]) && states[i + 1] == Move1(c, states[i], moves[i])
  }

  lemma {:induction false} AppRunKeepsInv(c: Setup, states: seq<App>, moves: seq<Move>, capacity: nat)
    requires IsAppRun(c, states, moves) && states[0] == NewApp(capacity)
    ensures AppInv(c, states[|moves|])
  {
    hide AppInv, Move1, Possible;
    if moves == [] {
      NewAppIsSound(c, capacity);
    } else {
      var n := |moves| - 1;
      AppRunKeepsInv(c, states[..n + 1], moves[..n], capacity);
      MoveKeepsAppInv(c, states[n], moves[n]);
    }
  }

  lemma DecisionsNameTheLink(s: Client)
    requires AiProtocol.Inv(s)
    ensures s.m.online ==> forall q | q in s.m.decisions :: q.decision.modelVersion == s.m.link.model
  {
    if s.m.online {
      forall q | q in s.m.decisions ensures q.decision.modelVersion == s.m.link.model {
        assert Faithful(s, q) && Current(s, q.ticket);
      }
    }
  }

  /** Over any interleaving, whenever the GUI thread is between events, a connected
      client means an online supervisor, both name the same model, and every
      queued decision was made by that model. Once a shutdown has run, the client
      is offline for good, its worker is gone and the supervisor is stopping. */
  lemma OnlineTogether(c: Setup, states: seq<App>, moves: seq<Move>, capacity: nat)
    requires IsAppRun(c, states, moves) && states[0] == NewApp(capacity)
    ensures var p := states[|moves|];
            p.todo == [] ==>
              && (p.client.m.online ==>
                    && p.sup.state.Online? && p.sup.model == p.client.m.link.model
                    && forall q | q in p.client.m.decisions :: q.decision.modelVersion == p.sup.model)
              && (p.stopping ==>
                    && !p.client.m.online && p.client.m.stopRequested && p.sup.state.Stopping?
                    && (p.client.w.phase.NotStarted? || p.client.w.phase.Exited?))
  {
    AppRunKeepsInv(c, states, moves, capacity);
    var p := states[|moves|];
    DecisionsNameTheLink(p.client);
    StoppedMeansOffline(p.client);
    hide AiProtocol.Inv;
  }

  /** A failure that reaches the GUI thread takes the supervisor out of its online
      state whichever connection it came from; if the client is connected at that
      moment, it is always a later connection than the one that failed. */
  lemma LateFailureHitsLaterConnection(c: Setup, p: App, e: Answers)
    requires AppInv(c, p) && Possible(c, p, Deliver(e)) && !p.stopping
    ensures var p' := Delivered(c, p, e);
            && (p.sup.state.Online? ==> !p'.sup.state.Online? && After(p'.todo, Model(p.client)) == None)
            && (!p.sup.state.Online? ==> p'.sup == p.sup && p'.todo == [])
            && (p.client.m.online ==> p.sup.state.Online? && p.posted[0] < p.client.m.gen)
  {
    hide AiProtocol.Inv;
    assert p.posted[0] in p.posted;
    FailSettles(c.settings, p.sup, e.dies, Model(p.client));
    var r := Supervision.Step(c.settings, p.sup, ReportFailure, e);
    assert Tells(r.effects) + [] == Tells(r.effects);
  }

  // Whether a delivered failure ends a connection that is not the one that failed.
  predicate EndsAnother(c: Setup, p: App, e: Answers)
    requires p.posted != []
  {
    && Model(p.client).Some? && p.client.m.gen != p.posted[0]
    && After(Delivered(c, p, e).todo, Model(p.client)) == None
  }

  /** That happens if and only if the client is connected when the failure is
      delivered: a report never arrives in time to find its own connection up. */
  lemma LateFailureIff(c: Setup, p: App, e: Answers)
    requires AppInv(c, p) && Possible(c, p, Deliver(e)) && !p.stopping
    ensures EndsAnother(c, p, e) <==> p.client.m.online
  {
    LateFailureHitsLaterConnection(c, p, e);
    hide AppInv, Delivered, After;
  }

  // ---- a run in which that happens ----

  predicate Plays(c: Setup, p: App, moves: seq<Move>, p': App)
    decreases |moves|
  {
    if moves == [] then p' == p else Possible(c, p, moves[0]) && Plays(c, Move1(c, p, moves[0]), moves[1..], p')
  }

  lemma {:induction false} PlaysOn(c: Setup, p: App, first: seq<Move>, mid: App, second: seq<Move>, p': App)
    requires Plays(c, p, first, mid) && Plays(c, mid, second, p')
    ensures Plays(c, p, first + second, p')
    decreases |first|
  {
    if first == [] {
      assert first + second == second;
    } else {
      PlaysOn(c, Move1(c, p, first[0]), first[1..], mid, second, p');
      assert (first + second)[1..] == first[1..] + second;
    }
  }

  ghost predicate Reaches(c: Setup, p: App, p': App) {
    exists moves :: Plays(c, p, moves, p')
  }

  lemma ReachOn(c: Setup, p: App, mid: App, p': App)
    requires Reaches(c, p, mid) && Reaches(c, mid, p')
    ensures Reaches(c, p, p')
  {
    var first :| Plays(c, p, first, mid);
    var second :| Plays(c, mid, second, p');
    PlaysOn(c, p, first, mid, second, p');
  }

  lemma ReachOne(c: Setup, p: App, m: Move)
    requires Possible(c, p, m)
    ensures Reaches(c, p, Move1(c, p, m))
  {
    assert [m][1..] == [];
    assert Plays(c, p, [m], Move1(c, p, m));
  }

  // An event whose two effects are both told before anything else happens.
  lemma ReachEvent(c: Setup, p: App, ev: Event, e: Answers)
    requires p.todo == [] && Possible(c, p, Gui(ev, e)) && |Supervision.Step(c.settings, p.sup, ev, e).effects| == 2
    ensures var r := Supervision.Step(c.settings, p.sup, ev, e);
            Reaches(c, p, p.(sup := r.s, client := Told(c, Told(c, p.client, r.effects[0]), r.effects[1])))
  {
    hide Supervision.Step, Told, Reaches;
    var r := Supervision.Step(c.settings, p.sup, ev, e);
    var p1 := p.(sup := r.s, todo := Tells(r.effects));
    assert Tells(r.effects) + [] == Tells(r.effects);
    var p2 := p1.(client := Told(c, p.client, r.effects[0]), todo := Tells(r.effects)[1..]);
    assert Tells(r.effects)[1..][1..] == [];
    ReachOne(c, p, Gui(ev, e));
    ReachOne(c, p1, Proceed);
    ReachOne(c, p2, Proceed);
    ReachOn(c, p, p1, p2);
    ReachOn(c, p, p2, p2.(client := Told(c, p2.client, r.effects[1]), todo := []));
  }

  const FINE := Answers(true, true, Accepted, true)
  const STARTED := Supervisor(Starting, Timers(true, false, false), 0, 0, false, false, "", true)
  const UP := Supervisor(Online, Timers(false, false, true), 0, 0, false, false, "m", true)
  const WAITING := Supervisor(RestartWait, Timers(false, true, false), 0, 0, true, false, "", false)
  const RESTARTED := Supervisor(Starting, Timers(true, false, false), 1, 1, false, false, "", true)
  const UP_AGAIN := Supervisor(Online, Timers(false, false, true), 1, 1, false, false, "n", true)

  lemma OneRestart()
    ensures var c := Settings(true, 1);
            && Supervision.Step(c, Initial(), Event.Start, FINE) == Outcome(STARTED, [Show(Starting), Launch])
            && Supervision.Step(c, STARTED, Output([Some("m")]), FINE) == Outcome(UP, [Ready("m", true), Show(Online)])
            && Supervision.Step(c, UP, Finished([]), FINE) == Outcome(WAITING, [Show(RestartWait), Arm(1000)])
            && Supervision.Step(c, WAITING, RestartTimeout, FINE) == Outcome(RESTARTED, [Show(Starting), Launch])
            && Supervision.Step(c, RESTARTED, Output([Some("n")]), FINE) == Outcome(UP_AGAIN, [Ready("n", true), Show(Online)])
  {
  }

  predicate WaitingForWork(s: Client) {
    s.w.phase.Idle? && s.w.socket.None? && s.m.online && !s.m.stopRequested && s.m.flows == [] && s.m.capacity == 1
  }

  lemma ReachTaken(c: Setup, p: App, record: Pipeline.FlowRecord)
    requires WaitingForWork(p.client)
    ensures DoConsume(p.client, record).m.flows != []
    ensures var s := DoTake(DoConsume(p.client, record));
            && s.w.phase.Taken? && s.w.job.Some? && s.w.socket.None? && Current(s, s.w.job.value.t)
            && s.w.job.value.t.gen == p.client.m.gen && !s.m.stopRequested
            && Reaches(c, p, p.(client := s))
  {
    hide Reaches;
    var p1 := p.(client := DoConsume(p.client, record));
    ReachOne(c, p, Work(Consume(record)));
    ReachOne(c, p1, Work(Take));
    ReachOn(c, p, p1, p1.(client := DoTake(p1.client)));
  }

  // The worker takes a record, cannot connect and drops the connection.
  lemma ReachDrop(c: Setup, p: App, record: Pipeline.FlowRecord) returns (p': App)
    requires WaitingForWork(p.client)
    ensures Reaches(c, p, p')
    ensures p' == p.(client := p'.client, failing := p.client.m.gen)
    ensures p'.client.w.phase.Notifying? && !p'.client.m.stopRequested
  {
    hide Reaches;
    var p1 := p.(client := DoTake(DoConsume(p.client, record)));
    ReachTaken(c, p, record);
    hide DoTake, DoConsume;
    var p2 := p1.(client := DoPrepare(p1.client, false));
    ReachOne(c, p1, Work(Prepare(false)));
    ReachOn(c, p, p1, p2);
    p' := p2.(client := DoFail(p2.client), failing := p.client.m.gen);
    ReachOne(c, p2, Work(FailTransport));
    ReachOn(c, p, p2, p');
  }

  lemma ReachUp(c: Setup) returns (p: App)
    requires c.settings == Settings(true, 1)
    ensures Reaches(c, NewApp(1), p)
    ensures p == App(p.client, UP, [], [], 0, false) && WaitingForWork(p.client)
  {
    OneRestart();
    hide Reaches, Supervision.Step;
    var p0 := NewApp(1);
    var p1 := p0.(client := NextOutside(p0.client, Action.Start));
    ReachOne(c, p0, Work(Action.Start));
    var p2 := p1.(sup := STARTED, client := NextOutside(p1.client, SetOffline));
    ReachEvent(c, p1, Event.Start, FINE);
    ReachOn(c, p0, p1, p2);
    p := p2.(sup := UP, client := NextOutside(p2.client, SetOnline(Link(c.endpoint, "m"))));
    ReachEvent(c, p2, Output([Some("m")]), FINE);
    ReachOn(c, p0, p2, p);
  }

  lemma ReachUpAgain(c: Setup, p: App) returns (p': App)
    requires c.settings == Settings(true, 1) && p.sup == UP && p.todo == [] && !p.client.m.stopRequested
    ensures Reaches(c, p, p')
    ensures p' == p.(client := p'.client, sup := UP_AGAIN)
    ensures p'.client.m.online && p'.client.w == p.client.w
  {
    OneRestart();
    hide Reaches, Supervision.Step;
    var p1 := p.(sup := WAITING, client := NextOutside(p.client, SetOffline));
    ReachEvent(c, p, Finished([]), FINE);
    var p2 := p1.(sup := RESTARTED, client := NextOutside(p1.client, SetOffline));
    ReachEvent(c, p1, RestartTimeout, FINE);
    ReachOn(c, p, p1, p2);
    p' := p2.(sup := UP_AGAIN, client := NextOutside(p2.client, SetOnline(Link(c.endpoint, "n"))));
    ReachEvent(c, p2, Output([Some("n")]), FINE);
    ReachOn(c, p, p2, p');
  }

  /** A report can come late: the worker drops its connection, the server exits and
      is restarted, and only then does the worker get to report; the new connection
      is up when the report arrives. */
  lemma LateFailureHappens(endpoint: string, record: Pipeline.FlowRecord)
    ensures exists p ::
              && Reaches(Setup(Settings(true, 1), endpoint), NewApp(1), p)
              && p.todo == [] && p.posted != [] && !p.stopping && p.client.m.online
  {
    hide Reaches, NewApp;
    var c := Setup(Settings(true, 1), endpoint);
    var p0 := NewApp(1);
    var p1 := ReachUp(c);
    var p2 := ReachDrop(c, p1, record);
    ReachOn(c, p0, p1, p2);
    var p3 := ReachUpAgain(c, p2);
    ReachOn(c, p0, p2, p3);
    ReachOne(c, p3, Work(Notify));
    ReachOn(c, p0, p3, Move1(c, p3, Work(Notify)));
  }
}
