/** Everything together: the capture thread, the client's threads and the GUI thread
    with the supervisor, all meeting in one client. */
module Station {
  import opened Common
  import opened Supervision
  import Pipeline
  import Ai = AiProtocol
  import App = Lifecycle
  import Sensor = WholeSensor

  // announced holds the model versions heard in the server's output so far.
  datatype Station = Station(sensing: Sensor.System, app: App.App, announced: set<string>)

  datatype Move =
    | Capture(capture: Sensor.Move)
    | Thread(action: Ai.Action)
    | Gui(gui: App.Move)

  function NewStation(capacity: nat, start: Time): (s: Station) {
    Station(Sensor.NewSystem(capacity, start), App.NewApp(capacity), {})
  }

  // The versions that ready lines announce.
  function Versions(lines: seq<Option<string>>): (versions: set<string>) {
    set i | 0 <= i < |lines| && lines[i].Some? :: lines[i].value
  }

  function HeardIn(ev: Event): (versions: set<string>) {
    if ev.Output? || ev.Finished? then Versions(ev.lines) else {}
  }

  function Heard(m: Move): (versions: set<string>) {
    if m.Gui? && m.gui.Gui? then HeardIn(m.gui.event) else {}
  }

  // What a move of the capture thread does to the client.
  function CaptureWork(s: Station, m: Sensor.Move): (work: Option<Ai.Action>) {
    if m.Tick? then Some(Ai.Drain)
    else if m.Offer? && s.sensing.outbox != [] then Some(Ai.Consume(s.sensing.outbox[0]))
    else None
  }

  ghost predicate Moves(s: Station, c: App.Setup, cfg: Pipeline.Config, m: Move, s': Station) {
    && s'.announced == s.announced + Heard(m)
    && match m
       case Capture(w) =>
         && !w.Other? && Sensor.Moves(s.sensing, cfg, w, s'.sensing)
         && s'.app == (match CaptureWork(s, w)
                       case Some(a) => App.Worked(s.app, a)
                       case None => s.app)
       case Thread(a) =>
         && !App.IsSwitch(a) && !a.Drain? && !a.Consume? && Ai.Enabled(s.app.client, a)
         && s'.app == App.Worked(s.app, a) && s'.sensing == s.sensing.(client := s'.app.client)
       case Gui(g) =>
         && !g.Work? && App.Possible(c, s.app, g)
         && s'.app == App.Move1(c, s.app, g) && s'.sensing == s.sensing.(client := s'.app.client)
  }

  // Connections only go to the supervised server, under a version it announced.
  ghost predicate LinksAnnounced(client: Ai.Client, endpoint: string, announced: set<string>) {
    forall g | g in client.h.links :: client.h.links[g].model in announced && client.h.links[g].endpoint == endpoint
  }

  // So will those that are still to be told.
  predicate TellsAnnounced(todo: seq<App.Todo>, announced: set<string>) {
    forall t | t in todo :: t.Tell? && t.e.Ready? ==> t.e.model in announced
  }

  ghost predicate StationInv(s: Station, c: App.Setup, cfg: Pipeline.Config) {
    && s.sensing.client == s.app.client
    && Sensor.SystemInv(s.sensing, cfg) && App.AppInv(c, s.app)
    && LinksAnnounced(s.app.client, c.endpoint, s.announced) && TellsAnnounced(s.app.todo, s.announced)
  }

  lemma NewStationIsSound(c: App.Setup, cfg: Pipeline.Config, capacity: nat, start: Time)
    requires cfg.Ok()
    ensures StationInv(NewStation(capacity, start), c, cfg)
  {
    hide Sensor.SystemInv, App.AppInv;
    Sensor.NewSystemIsSound(cfg, capacity, start);
    App.NewAppIsSound(c, capacity);
  }

  // ---- where the versions come from ----

  // The ready effects among these name heard versions only.
  predicate Named(es: seq<Effect>, versions: set<string>) {
    forall e | e in es :: e.Ready? ==> e.model in versions
  }

  lemma FailNames(c: Settings, s: Supervisor, dies: bool)
    ensures Named(Fail(c, s, dies).effects, {})
  {
  }

  lemma {:induction false} FeedNames(c: Settings, s: Supervisor, lines: seq<Option<string>>, e: Answers)
    ensures Named(Feed(c, s, lines, e).effects, Versions(lines))
    decreases |lines|
  {
    hide Fail;
    if lines != [] {
      var first := HandleLine(c, s, lines[0], e);
      FeedNames(c, first.s, lines[1..], e);
      forall v | v in Versions(lines[1..]) ensures v in Versions(lines) {
        var i :| 0 <= i < |lines[1..]| && lines[1..][i].Some? && lines[1..][i].value == v;
        assert lines[i + 1].value == v;
      }
      if lines[0].Some? {
        assert lines[0].value in Versions(lines);
        FailNames(c, s.(timers := s.timers.(startup := false), model := lines[0].value), e.dies);
      }
    }
  }

  /** The ready handler is only ever called with a version the output announced. */
  lemma StepNames(c: Settings, s: Supervisor, ev: Event, e: Answers)
    requires Enabled(s, ev)
    ensures Named(Step(c, s, ev, e).effects, HeardIn(ev))
  {
    hide Feed, Versions;
    match ev {
      case Output(lines) => FeedNames(c, s, lines, e);
      case Finished(lines) =>
        FeedNames(c, s.(running := false), lines, e);
        FailNames(c, Feed(c, s.(running := false), lines, e).s, e.dies);
      case _ =>
    }
  }

  lemma HandleTells(c: App.Setup, p: App.App, ev: Event, e: Answers, announced: set<string>)
    requires Enabled(p.sup, ev) && TellsAnnounced(p.todo, announced)
    ensures TellsAnnounced(App.Handle(c, p, ev, e).todo, announced + HeardIn(ev))
  {
    hide Step, HeardIn;
    StepNames(c.settings, p.sup, ev, e);
    var es := Step(c.settings, p.sup, ev, e).effects;
    forall t | t in App.Tells(es) ensures t.Tell? && t.e in es {
    }
  }

  // ---- what the moves do to the connections ----

  lemma WorkKeepsLinks(client: Ai.Client, a: Ai.Action)
    requires Ai.Enabled(client, a) && !App.IsSwitch(a)
    ensures Ai.Next(client, a).h.links == client.h.links
  {
    match Ai.GroupOf(a) {
      case Outside =>
      case Outgoing =>
      case Answering =>
      case Ending =>
    }
  }

  // What the GUI thread does to the client is one switch, or nothing; and a new
  // link is to the version it tells.
  lemma GuiSwitches(c: App.Setup, p: App.App, g: App.Move) returns (a: Option<Ai.Action>)
    requires !g.Work? && App.Possible(c, p, g)
    ensures var client' := App.Move1(c, p, g).client;
            if a.None? then client' == p.client
            else
              && App.IsSwitch(a.value) && client' == Ai.Next(p.client, a.value)
              && (a.value.SetOnline? ==>
                    && a.value.to.endpoint == c.endpoint && p.todo != []
                    && g.Proceed? && p.todo[0].Tell? && p.todo[0].e.Ready? && p.todo[0].e.model == a.value.to.model)
  {
    hide Ai.NextOutside, Step;
    a := None;
    if g.Proceed? {
      match p.todo[0] {
        case Tell(e) =>
          match e {
            case Ready(model, reached) =>
              if reached {
                a := Some(Ai.SetOnline(Ai.Link(c.endpoint, model)));
              }
            case Show(state) =>
              if !state.Online? {
                a := Some(Ai.SetOffline);
              }
            case _ =>
          }
        case StopClient => a := Some(Ai.Stop);
        case _ =>
      }
    }
  }

  lemma SwitchKeepsLinks(client: Ai.Client, a: Ai.Action, endpoint: string, announced: set<string>)
    requires App.IsSwitch(a) && LinksAnnounced(client, endpoint, announced)
    requires a.SetOnline? ==> a.to.model in announced && a.to.endpoint == endpoint
    ensures LinksAnnounced(Ai.Next(client, a), endpoint, announced)
  {
  }

  // ---- each move keeps the invariant ----

  lemma SameLinks(client: Ai.Client, client': Ai.Client, endpoint: string, announced: set<string>)
    requires LinksAnnounced(client, endpoint, announced) && client'.h.links == client.h.links
    ensures LinksAnnounced(client', endpoint, announced)
  {
  }

  lemma CaptureKeepsInv(s: Station, c: App.Setup, cfg: Pipeline.Config, w: Sensor.Move, s': Station)
    requires StationInv(s, c, cfg) && Moves(s, c, cfg, Capture(w), s')
    ensures StationInv(s', c, cfg)
  {
    hide Sensor.SystemInv, App.AppInv, Sensor.Captures, Ai.Next, LinksAnnounced;
    Sensor.MoveKeepsSystemInv(s.sensing, cfg, w, s'.sensing);
    assert s'.announced == s.announced;
    match CaptureWork(s, w) {
      case Some(a) =>
        App.WorkKeepsAppInv(c, s.app, a);
        WorkKeepsLinks(s.app.client, a);
        SameLinks(s.app.client, s'.app.client, c.endpoint, s.announced);
      case None =>
    }
  }

  lemma ThreadKeepsInv(s: Station, c: App.Setup, cfg: Pipeline.Config, a: Ai.Action, s': Station)
    requires StationInv(s, c, cfg) && Moves(s, c, cfg, Thread(a), s')
    ensures StationInv(s', c, cfg)
  {
    hide Sensor.SystemInv, App.AppInv, Ai.Next, Ai.Enabled, LinksAnnounced;
    assert s'.announced == s.announced;
    App.WorkKeepsAppInv(c, s.app, a);
    Sensor.OtherKeepsInv(s.sensing, cfg, a, s'.sensing);
    WorkKeepsLinks(s.app.client, a);
    SameLinks(s.app.client, s'.app.client, c.endpoint, s.announced);
  }

  lemma QuietEvents()
    ensures HeardIn(Event.Stop) == {} && HeardIn(ReportFailure) == {}
  {
  }

  lemma GuiKeepsTells(s: Station, c: App.Setup, cfg: Pipeline.Config, g: App.Move, s': Station)
    requires StationInv(s, c, cfg) && Moves(s, c, cfg, Gui(g), s')
    ensures TellsAnnounced(s'.app.todo, s'.announced)
  {
    hide Sensor.SystemInv, App.AppInv, LinksAnnounced, App.Handle, App.Told, HeardIn, Ai.NextOutside;
    match g {
      case Gui(ev, e) => HandleTells(c, s.app, ev, e, s.announced);
      case Proceed =>
        var rest := s.app.(todo := s.app.todo[1..]);
        assert TellsAnnounced(rest.todo, s.announced);
        if s.app.todo[0].StopSupervisor? {
          HandleTells(c, rest, Event.Stop, s.app.todo[0].answers, s.announced);
          QuietEvents();
        }
      case Deliver(e) =>
        HandleTells(c, s.app.(posted := s.app.posted[1..]), ReportFailure, e, s.announced);
        QuietEvents();
      case Shutdown(e) =>
    }
  }

  lemma GuiKeepsInv(s: Station, c: App.Setup, cfg: Pipeline.Config, g: App.Move, s': Station)
    requires StationInv(s, c, cfg) && Moves(s, c, cfg, Gui(g), s')
    ensures StationInv(s', c, cfg)
  {
    hide Sensor.SystemInv, App.AppInv, Ai.Next, App.Move1, App.Possible, Heard;
    App.MoveKeepsAppInv(c, s.app, g);
    GuiKeepsTells(s, c, cfg, g, s');
    var a := GuiSwitches(c, s.app, g);
    if a.Some? {
      assert s.app.todo != [] ==> s.app.todo[0] in s.app.todo;
      SwitchKeepsLinks(s.app.client, a.value, c.endpoint, s.announced);
      Sensor.OtherKeepsInv(s.sensing, cfg, a.value, s'.sensing);
    }
  }

  /** Every move of every thread keeps the invariant of the whole. */
  lemma MoveKeepsStationInv(s: Station, c: App.Setup, cfg: Pipeline.Config, m: Move, s': Station)
    requires StationInv(s, c, cfg) && Moves(s, c, cfg, m, s')
    ensures StationInv(s', c, cfg)
  {
    hide StationInv, Moves;
    match m {
      case Capture(w) => CaptureKeepsInv(s, c, cfg, w, s');
      case Thread(a) => ThreadKeepsInv(s, c, cfg, a, s');
      case Gui(g) => GuiKeepsInv(s, c, cfg, g, s');
    }
  }

  ghost predicate IsStationRun(states: seq<Station>, moves: seq<Move>, c: App.Setup, cfg: Pipeline.Config) {
    && |states| == |moves| + 1
    && forall i | 0 <= i < |moves| :: Moves(states[i], c, cfg, moves[i], states[i + 1])
  }

  function AllHeard(moves: seq<Move>): (versions: set<string>) {
    if moves == [] then {} else AllHeard(moves[..|moves| - 1]) + Heard(moves[|moves| - 1])
  }

  lemma {:induction false} StationRunKeepsInv(states: seq<Station>, moves: seq<Move>, c: App.Setup, cfg: Pipeline.Config,
                                              capacity: nat, start: Time)
    requires cfg.Ok() && IsStationRun(states, moves, c, cfg) && states[0] == NewStation(capacity, start)
    ensures StationInv(states[|moves|], c, cfg) && states[|moves|].announced == AllHeard(moves)
  {
    hide StationInv, Heard;
    if moves == [] {
      NewStationIsSound(c, cfg, capacity, start);
    } else {
      var n := |moves| - 1;
      StationRunKeepsInv(states[..n + 1], moves[..n], c, cfg, capacity, start);
      MoveKeepsStationInv(states[n], c, cfg, moves[n], states[n + 1]);
    }
  }

  lemma GroundedIsAnnounced(s: Station, c: App.Setup, q: Ai.Queued)
    requires s.sensing.client == s.app.client && LinksAnnounced(s.app.client, c.endpoint, s.announced)
    requires Sensor.Grounded(s.sensing, q)
    ensures q.decision.modelVersion in s.announced
  {
  }

  /** Over any interleaving of all threads: every block made because of the model
      stems from a decision about a submitted and accepted flow of its source, whose
      model version a ready line of the supervised server announced; and no request
      ever went anywhere but to that server. */
  lemma AiBlocksWereAnnounced(states: seq<Station>, moves: seq<Move>, c: App.Setup, cfg: Pipeline.Config,
                              capacity: nat, start: Time)
    requires cfg.Ok() && IsStationRun(states, moves, c, cfg) && states[0] == NewStation(capacity, start)
    ensures var s := states[|moves|];
            && |s.sensing.aiMade| == s.sensing.sensor.aiBlocks
            && (forall m | m in s.sensing.aiMade ::
                  exists q | q in s.sensing.client.h.drained ::
                    && q.decision.record.flow.key.srcIp == m.ip && Sensor.Grounded(s.sensing, q)
                    && q.decision.modelVersion in AllHeard(moves))
            && (forall g | g in s.sensing.client.h.links :: s.sensing.client.h.links[g].endpoint == c.endpoint)
  {
    StationRunKeepsInv(states, moves, c, cfg, capacity, start);
    var s := states[|moves|];
    hide IsStationRun, App.AppInv, AllHeard, Ai.Inv, Pipeline.SensorInv, Sensor.InOrder, Sensor.Grounded;
    forall m | m in s.sensing.aiMade
      ensures exists q | q in s.sensing.client.h.drained ::
                && q.decision.record.flow.key.srcIp == m.ip && Sensor.Grounded(s.sensing, q)
                && q.decision.modelVersion in AllHeard(moves)
    {
      var q :| q in s.sensing.client.h.drained && q.decision.record.flow.key.srcIp == m.ip;
      Sensor.DrainedIsGrounded(s.sensing, cfg, q);
      GroundedIsAnnounced(s, c, q);
    }
  }
}
