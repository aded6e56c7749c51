/** The asynchronous AI client as a transition system: every critical section,
    and every unlocked send, receive, parse or callback, is one atomic action,
    and all of them interleave freely. */
module AiProtocol {
  import opened Common
  import opened Pipeline

  // Where the model of one connection generation is reached, and its version.
  datatype Link = Link(endpoint: string, model: string)

  // An accepted record: its place in the order of acceptance and the generation
  // it was accepted in.
  datatype Ticket = Ticket(no: nat, record: FlowRecord, gen: nat)

  datatype AiDecision = AiDecision(record: FlowRecord, score: real, threshold: real, modelVersion: string)

  // A queued decision, with its ticket and the generation it was queued in.
  datatype Queued = Queued(ticket: Ticket, decision: AiDecision, queuedIn: nat)

  // What the worker thread is about to do.
  datatype Phase =
    | NotStarted | Idle | Taken | Sending | Awaiting | Replied | Parsing | Rejected | Erring | Normal
    | Deciding(decision: AiDecision) | Failing(timedOut: bool) | Notifying(timedOut: bool) | Exited
  {
    // Whether it has a record in hand.
    predicate Holds() {
      !NotStarted? && !Idle? && !Notifying? && !Exited?
    }
  }

  // The record in hand, with the link it is to be sent over.
  datatype Job = Job(t: Ticket, link: Link)

  datatype Socket = Socket(gen: nat, endpoint: string, awaitingReply: bool)

  datatype Counters = Counters(
    submitted: nat, unavailableDropped: nat, queueFullDropped: nat, normal: nat, anomaly: nat,
    protocolErrors: nat, timeouts: nat)

  // The fields guarded by the mutex.
  datatype Shared = Shared(
    capacity: nat, online: bool, stopRequested: bool, started: bool, gen: nat, link: Link,
    flows: seq<Ticket>, decisions: seq<Queued>)

  // The worker thread's own variables.
  datatype Worker = Worker(phase: Phase, job: Option<Job>, socket: Option<Socket>)

  // Kept for the proofs: tickets accepted, answered and lost and decisions drained
  // so far, the link of each generation, and how often the client was set online
  // and the failure handler called.
  datatype History = History(
    accepted: seq<Ticket>, answered: seq<Ticket>, lost: seq<Ticket>, drained: seq<Queued>, links: map<nat, Link>,
    onlines: nat, handlerCalls: nat)

  datatype Client = Client(m: Shared, w: Worker, count: Counters, h: History)

  function Fresh(capacity: nat): (r: Client) {
    Client(Shared(capacity, false, false, false, 0, Link("", ""), [], []), Worker(NotStarted, None, None),
           Counters(0, 0, 0, 0, 0, 0, 0), History([], [], [], [], map[], 0, 0))
  }

  datatype Transfer = Done | TimedOut | Threw

  // A reply as parsed; an accepted one names the expected flow and model.
  datatype Reply = BadReply | NormalReply | AnomalyReply(score: real, threshold: real)

  datatype Action =
    | Start | SetOnline(to: Link) | SetOffline | Stop | Consume(record: FlowRecord) | Drain
    | Take | Prepare(ok: bool) | Send(sent: Transfer) | Receive(received: Transfer) | CheckReply | Parse(reply: Reply)
    | CheckRejected | CountError | CountNormal | Decide | FailTransport | Notify | Exit

  predicate IsWorkerStep(a: Action) {
    !(a.Start? || a.SetOnline? || a.SetOffline? || a.Stop? || a.Consume? || a.Drain?)
  }

  predicate Current(s: Client, t: Ticket) {
    s.m.online && s.m.gen == t.gen
  }

  // When an action can happen: what the worker is at, and what it waits for.
  predicate Enabled(s: Client, a: Action) {
    match a
    case Take => s.w.phase.Idle? && !s.m.stopRequested && s.m.online && s.m.flows != []
    case Exit => s.w.phase.Idle? && s.m.stopRequested
    case Prepare(_) => s.w.phase.Taken? && s.w.job.Some?
    case Send(_) => s.w.phase.Sending? && s.w.job.Some? && s.w.socket.Some?
    case Receive(_) => s.w.phase.Awaiting? && s.w.job.Some? && s.w.socket.Some?
    case CheckReply => s.w.phase.Replied? && s.w.job.Some?
    case Parse(_) => s.w.phase.Parsing? && s.w.job.Some?
    case CheckRejected => s.w.phase.Rejected? && s.w.job.Some?
    case CountError => s.w.phase.Erring? && s.w.job.Some?
    case CountNormal => s.w.phase.Normal? && s.w.job.Some?
    case Decide =>
      && s.w.phase.Deciding? && s.w.job.Some?
      && (s.m.stopRequested || !Current(s, s.w.job.value.t) || |s.m.decisions| < s.m.capacity)
    case FailTransport => s.w.phase.Failing? && s.w.job.Some?
    case Notify => s.w.phase.Notifying?
    case _ => true
  }

  // Every change of connection empties both queues.
  function NewGeneration(s: Client, online: bool): (r: Client) {
    s.(m := s.m.(online := online, gen := s.m.gen + 1, flows := [], decisions := []),
       h := s.h.(lost := s.h.lost + s.m.flows))
  }

  function Held(job: Option<Job>): (r: seq<Ticket>) {
    if job.Some? then [job.value.t] else []
  }

  // The worker puts the record down: answered, or lost with its generation.
  function Release(s: Client): (r: Client) {
    s.(w := Worker(Idle, None, s.w.socket), h := s.h.(answered := s.h.answered + Held(s.w.job)))
  }

  function Lose(s: Client, socket: Option<Socket>): (r: Client) {
    s.(w := Worker(Idle, None, socket), h := s.h.(lost := s.h.lost + Held(s.w.job)))
  }

  function At(s: Client, phase: Phase): (r: Client) {
    s.(w := s.w.(phase := phase))
  }

  function Accept(s: Client, record: FlowRecord): (r: Client) {
    var t := Ticket(|s.h.accepted|, record, s.m.gen);
    s.(m := s.m.(flows := s.m.flows + [t]), count := s.count.(submitted := s.count.submitted + 1),
       h := s.h.(accepted := s.h.accepted + [t]))
  }

  function DoConsume(s: Client, record: FlowRecord): (r: Client) {
    if !s.m.online || s.m.stopRequested then
      s.(count := s.count.(unavailableDropped := s.count.unavailableDropped + 1))
    else if |s.m.flows| >= s.m.capacity then
      s.(count := s.count.(queueFullDropped := s.count.queueFullDropped + 1))
    else
      Accept(s, record)
  }

  function DoSetOnline(s: Client, to: Link): (r: Client) {
    if s.m.stopRequested then s
    else
      var n := NewGeneration(s, true);
      n.(m := n.m.(link := to), h := n.h.(links := s.h.links[s.m.gen + 1 := to], onlines := s.h.onlines + 1))
  }

  function DoStop(s: Client): (r: Client) {
    var n := NewGeneration(s, false);
    n.(m := n.m.(stopRequested := true, started := false))
  }

  function DoTake(s: Client): (r: Client)
    requires s.m.flows != []
  {
    s.(m := s.m.(flows := s.m.flows[1..]), w := Worker(Taken, Some(Job(s.m.flows[0], s.m.link)), s.w.socket))
  }

  // A socket of another generation is replaced before anything is sent.
  function DoPrepare(s: Client, ok: bool): (r: Client)
    requires s.w.job.Some?
  {
    var job := s.w.job.value;
    if s.w.socket.Some? && s.w.socket.value.gen == job.t.gen then At(s, Sending)
    else if ok then s.(w := Worker(Sending, s.w.job, Some(Socket(job.t.gen, job.link.endpoint, false))))
    else s.(w := Worker(Failing(false), s.w.job, None))
  }

  function DoSend(s: Client, sent: Transfer): (r: Client)
    requires s.w.socket.Some?
  {
    if sent.Done? then s.(w := Worker(Awaiting, s.w.job, Some(s.w.socket.value.(awaitingReply := true))))
    else s.(w := Worker(Failing(sent.TimedOut?), s.w.job, None))
  }

  function DoReceive(s: Client, received: Transfer): (r: Client)
    requires s.w.socket.Some?
  {
    if received.Done? then s.(w := Worker(Replied, s.w.job, Some(s.w.socket.value.(awaitingReply := false))))
    else s.(w := Worker(Failing(received.TimedOut?), s.w.job, None))
  }

  function DoParse(s: Client, reply: Reply): (r: Client)
    requires s.w.job.Some?
  {
    var job := s.w.job.value;
    match reply
    case BadReply => At(s, Rejected)
    case NormalReply => At(s, Normal)
    case AnomalyReply(score, threshold) => At(s, Deciding(AiDecision(job.t.record, score, threshold, job.link.model)))
  }

  function DoDecide(s: Client): (r: Client)
    requires s.w.phase.Deciding? && s.w.job.Some?
  {
    var t := s.w.job.value.t;
    if s.m.stopRequested || !Current(s, t) then Lose(s, None)
    else
      Release(s).(m := s.m.(decisions := s.m.decisions + [Queued(t, s.w.phase.decision, s.m.gen)]),
                  count := s.count.(anomaly := s.count.anomaly + 1))
  }

  function DoFail(s: Client): (r: Client)
    requires s.w.phase.Failing? && s.w.job.Some?
  {
    if !Current(s, s.w.job.value.t) then Lose(s, s.w.socket)
    else
      var n := NewGeneration(s, false);
      n.(w := Worker(Notifying(s.w.phase.timedOut), None, s.w.socket), h := n.h.(lost := n.h.lost + [s.w.job.value.t]))
  }

  function DoNotify(s: Client): (r: Client)
    requires s.w.phase.Notifying?
  {
    var timeouts := if s.w.phase.timedOut then s.count.timeouts + 1 else s.count.timeouts;
    At(s, Idle).(count := s.count.(timeouts := timeouts), h := s.h.(handlerCalls := s.h.handlerCalls + 1))
  }

  // The actions fall into four groups: calls from outside, the worker sending a
  // request, handling the answer, and ending its turn.
  datatype Group = Outside | Outgoing | Answering | Ending

  function GroupOf(a: Action): (r: Group) {
    match a
    case Start | SetOnline(_) | SetOffline | Stop | Consume(_) | Drain => Outside
    case Take | Prepare(_) | Send(_) | Receive(_) => Outgoing
    case CheckReply | Parse(_) | CheckRejected | CountError | CountNormal => Answering
    case Decide | FailTransport | Notify | Exit => Ending
  }

  function NextOutside(s: Client, a: Action): (r: Client)
    requires GroupOf(a).Outside?
  {
    match a
    case Start =>
      if s.m.started || s.m.stopRequested then s else At(s, Idle).(m := s.m.(started := true))
    case SetOnline(to) => DoSetOnline(s, to)
    case SetOffline => NewGeneration(s, false)
    case Stop => DoStop(s)
    case Consume(record) => DoConsume(s, record)
    case Drain => s.(m := s.m.(decisions := []), h := s.h.(drained := s.h.drained + s.m.decisions))
  }

  function NextOutgoing(s: Client, a: Action): (r: Client)
    requires Enabled(s, a) && GroupOf(a).Outgoing?
  {
    match a
    case Take => DoTake(s)
    case Prepare(ok) => DoPrepare(s, ok)
    case Send(sent) => DoSend(s, sent)
    case Receive(received) => DoReceive(s, received)
  }

  function NextAnswering(s: Client, a: Action): (r: Client)
    requires Enabled(s, a) && GroupOf(a).Answering?
  {
    var current := Current(s, s.w.job.value.t);
    match a
    case CheckReply => if current then At(s, Parsing) else Lose(s, None)
    case Parse(reply) => DoParse(s, reply)
    case CheckRejected => if current then At(s, Erring) else Lose(s, None)
    case CountError => Release(s).(count := s.count.(protocolErrors := s.count.protocolErrors + 1))
    case CountNormal =>
      if current then Release(s).(count := s.count.(normal := s.count.normal + 1)) else Lose(s, s.w.socket)
  }

  function NextEnding(s: Client, a: Action): (r: Client)
    requires Enabled(s, a) && GroupOf(a).Ending?
  {
    match a
    case Decide => DoDecide(s)
    case FailTransport => DoFail(s)
    case Notify => DoNotify(s)
    case Exit => s.(w := Worker(Exited, s.w.job, None))
  }

  function Next(s: Client, a: Action): (r: Client)
    requires Enabled(s, a)
  {
    match GroupOf(a)
    case Outside => NextOutside(s, a)
    case Outgoing => NextOutgoing(s, a)
    case Answering => NextAnswering(s, a)
    case Ending => NextEnding(s, a)
  }

  // ---- invariants ----

  // A ticket is genuine when it is the record accepted at its place, in a
  // generation that had a link.
  predicate Genuine(s: Client, t: Ticket) {
    t.no < |s.h.accepted| && s.h.accepted[t.no] == t && t.gen in s.h.links && t.gen <= s.m.gen
  }

  // A queued decision is about its own ticket's record, was queued in the
  // generation that accepted it, and carries that generation's model.
  predicate Faithful(s: Client, q: Queued) {
    && Genuine(s, q.ticket) && q.queuedIn == q.ticket.gen
    && q.decision.record == q.ticket.record && q.decision.modelVersion == s.h.links[q.ticket.gen].model
  }

  predicate GenerationSafe(s: Client) {
    && (forall t | t in s.m.flows :: Genuine(s, t) && Current(s, t))
    && (forall q | q in s.m.decisions :: Faithful(s, q) && Current(s, q.ticket))
    && (forall q | q in s.h.drained :: Faithful(s, q))
    && (s.m.online <==> s.m.gen in s.h.links)
    && (s.m.online ==> s.h.links[s.m.gen] == s.m.link)
    && (s.m.stopRequested ==> !s.m.online)
    && (s.w.job.Some? ==> Genuine(s, s.w.job.value.t) && s.h.links[s.w.job.value.t.gen] == s.w.job.value.link)
    && (s.w.phase.Deciding? && s.w.job.Some? ==>
          && s.w.phase.decision.record == s.w.job.value.t.record
          && s.w.phase.decision.modelVersion == s.w.job.value.link.model)
    && (forall g | g in s.h.links :: g <= s.m.gen)
    && (forall i | 0 <= i < |s.h.accepted| :: s.h.accepted[i].no == i)
  }

  predicate HandsFull(s: Client) {
    s.w.job.Some? <==> s.w.phase.Holds()
  }

  // Requests only travel on an idle socket of their own generation.
  predicate SocketSafe(s: Client) {
    && (s.w.socket.Some? ==>
          && s.w.socket.value.gen in s.h.links && s.w.socket.value.endpoint == s.h.links[s.w.socket.value.gen].endpoint
          && (s.w.socket.value.awaitingReply <==> s.w.phase.Awaiting?))
    && HandsFull(s)
    && (s.w.phase.Sending? || s.w.phase.Awaiting? ==> s.w.socket.Some? && s.w.socket.value.gen == s.w.job.value.t.gen)
    && (s.w.phase.Failing? ==> s.w.socket.None?)
    && (!s.m.started && !s.m.stopRequested ==> s.w.phase.NotStarted?)
  }

  function Tickets(qs: seq<Queued>): (r: seq<Ticket>) {
    seq(|qs|, i requires 0 <= i < |qs| => qs[i].ticket)
  }

  // Everything that was accepted and not lost or answered, oldest first.
  function Line(s: Client): (r: seq<Ticket>) {
    Tickets(s.h.drained) + Tickets(s.m.decisions) + Held(s.w.job) + s.m.flows
  }

  predicate Increasing(ts: seq<Ticket>) {
    forall i, j | 0 <= i < j < |ts| :: ts[i].no < ts[j].no
  }

  predicate Ordered(s: Client) {
    && Increasing(Line(s))
    && (forall t | t in Line(s) :: t.no < |s.h.accepted|)
    && |s.m.flows| <= s.m.capacity && |s.m.decisions| <= s.m.capacity
  }

  function Places(queued: seq<Ticket>, held: seq<Ticket>, answered: seq<Ticket>, lost: seq<Ticket>): (all: multiset<Ticket>) {
    multiset(queued) + multiset(held) + multiset(answered) + multiset(lost)
  }

  // Where a record can be: queued, in hand, answered or lost.
  function Whereabouts(s: Client): (all: multiset<Ticket>) {
    Places(s.m.flows, Held(s.w.job), s.h.answered, s.h.lost)
  }

  // Records are only lost when their generation is over.
  predicate LostAreOver(s: Client) {
    forall t | t in s.h.lost :: t.gen < s.m.gen
  }

  predicate Conserved(s: Client) {
    && s.count.submitted == |s.h.accepted|
    && |s.h.answered| == s.count.normal + s.count.anomaly + s.count.protocolErrors
    && multiset(s.h.accepted) == Whereabouts(s)
    && s.count.anomaly >= |s.h.drained| + |s.m.decisions|
    && s.h.handlerCalls + (if s.w.phase.Notifying? then 1 else 0) + (if s.m.online then 1 else 0) <= s.h.onlines
    && s.count.timeouts <= s.h.handlerCalls
  }

  predicate Inv(s: Client) {
    GenerationSafe(s) && SocketSafe(s) && Ordered(s) && Conserved(s) && LostAreOver(s)
  }

  lemma FreshIsSafe(capacity: nat)
    ensures Inv(Fresh(capacity))
  {
  }

  // The history only grows, and generations only advance.
  predicate Extends(s: Client, s': Client) {
    && s.m.gen <= s'.m.gen
    && |s.h.accepted| <= |s'.h.accepted| && s.h.accepted == s'.h.accepted[..|s.h.accepted|]
    && (forall g | g in s.h.links :: g in s'.h.links && s'.h.links[g] == s.h.links[g])
  }

  lemma OutsideExtends(s: Client, a: Action)
    requires GroupOf(a).Outside? && forall g | g in s.h.links :: g <= s.m.gen
    ensures Extends(s, NextOutside(s, a))
  {
    assert s.h.accepted[..|s.h.accepted|] == s.h.accepted;
  }

  // The worker changes neither what was accepted nor any link.
  lemma WorkerExtends(s: Client, s': Client)
    requires s'.h.accepted == s.h.accepted && s'.h.links == s.h.links && s.m.gen <= s'.m.gen
    ensures Extends(s, s')
  {
    assert s.h.accepted[..|s.h.accepted|] == s.h.accepted;
  }

  lemma ExtendsKeepsHistory(s: Client, s': Client)
    requires Extends(s, s')
    ensures forall t | Genuine(s, t) :: Genuine(s', t)
    ensures forall q | Faithful(s, q) :: Faithful(s', q)
  {
    forall t | Genuine(s, t) ensures Genuine(s', t) {
      assert s'.h.accepted[t.no] == s.h.accepted[t.no];
    }
  }

  lemma ConsumeKeepsGenerationSafe(s: Client, record: FlowRecord)
    requires GenerationSafe(s)
    ensures GenerationSafe(DoConsume(s, record))
  {
    var s' := DoConsume(s, record);
    assert s.h.accepted[..|s.h.accepted|] == s.h.accepted;
    ExtendsKeepsHistory(s, s');
    if s'.h.accepted != s.h.accepted {
      assert Genuine(s', s'.h.accepted[|s.h.accepted|]);
    }
    hide Genuine, Faithful, Extends;
  }

  lemma OutsideKeepsGenerationSafe(s: Client, a: Action)
    requires GenerationSafe(s) && SocketSafe(s) && Enabled(s, a) && GroupOf(a).Outside?
    ensures GenerationSafe(NextOutside(s, a))
  {
    OutsideExtends(s, a);
    ExtendsKeepsHistory(s, NextOutside(s, a));
    hide Extends, Genuine, Faithful;
    if a.Consume? {
      ConsumeKeepsGenerationSafe(s, a.record);
    }
  }

  lemma OutgoingKeepsGenerationSafe(s: Client, a: Action)
    requires GenerationSafe(s) && SocketSafe(s) && Enabled(s, a) && GroupOf(a).Outgoing?
    ensures GenerationSafe(NextOutgoing(s, a))
  {
    WorkerExtends(s, NextOutgoing(s, a));
    ExtendsKeepsHistory(s, NextOutgoing(s, a));
    if a.Take? {
      assert s.m.flows[0] in s.m.flows && Genuine(s, s.m.flows[0]);
      assert forall t | t in s.m.flows[1..] :: t in s.m.flows;
    }
    hide Extends, Genuine, Faithful;
  }

  lemma AnsweringKeepsGenerationSafe(s: Client, a: Action)
    requires GenerationSafe(s) && SocketSafe(s) && Enabled(s, a) && GroupOf(a).Answering?
    ensures GenerationSafe(NextAnswering(s, a))
  {
    WorkerExtends(s, NextAnswering(s, a));
    ExtendsKeepsHistory(s, NextAnswering(s, a));
    hide Extends, Genuine, Faithful;
  }

  lemma DecideKeepsGenerationSafe(s: Client)
    requires GenerationSafe(s) && s.w.phase.Deciding? && s.w.job.Some?
    ensures GenerationSafe(DoDecide(s))
  {
    assert s.h.accepted[..|s.h.accepted|] == s.h.accepted;
    ExtendsKeepsHistory(s, DoDecide(s));
  }

  lemma EndingKeepsGenerationSafe(s: Client, a: Action)
    requires GenerationSafe(s) && SocketSafe(s) && Enabled(s, a) && GroupOf(a).Ending?
    ensures GenerationSafe(NextEnding(s, a))
  {
    if a.Decide? {
      DecideKeepsGenerationSafe(s);
    } else {
      WorkerExtends(s, NextEnding(s, a));
      ExtendsKeepsHistory(s, NextEnding(s, a));
      hide Extends, Genuine, Faithful;
    }
  }

  lemma NextKeepsGenerationSafe(s: Client, a: Action)
    requires GenerationSafe(s) && SocketSafe(s) && Enabled(s, a)
    ensures GenerationSafe(Next(s, a))
  {
    match GroupOf(a) {
      case Outside => OutsideKeepsGenerationSafe(s, a);
      case Outgoing => OutgoingKeepsGenerationSafe(s, a);
      case Answering => AnsweringKeepsGenerationSafe(s, a);
      case Ending => EndingKeepsGenerationSafe(s, a);
    }
  }

  lemma OutsideKeepsSocketSafe(s: Client, a: Action)
    requires GenerationSafe(s) && SocketSafe(s) && Enabled(s, a) && GroupOf(a).Outside?
    ensures SocketSafe(NextOutside(s, a))
  {
    hide Genuine, Faithful;
  }

  lemma OutgoingKeepsSocketSafe(s: Client, a: Action)
    requires GenerationSafe(s) && SocketSafe(s) && Enabled(s, a) && GroupOf(a).Outgoing?
    ensures SocketSafe(NextOutgoing(s, a))
  {
    hide Faithful;
  }

  lemma AnsweringKeepsSocketSafe(s: Client, a: Action)
    requires GenerationSafe(s) && SocketSafe(s) && Enabled(s, a) && GroupOf(a).Answering?
    ensures SocketSafe(NextAnswering(s, a))
  {
    hide Genuine, Faithful;
  }

  lemma EndingKeepsSocketSafe(s: Client, a: Action)
    requires GenerationSafe(s) && SocketSafe(s) && Enabled(s, a) && GroupOf(a).Ending?
    ensures SocketSafe(NextEnding(s, a))
  {
    hide Genuine, Faithful;
  }

  lemma NextKeepsSocketSafe(s: Client, a: Action)
    requires GenerationSafe(s) && SocketSafe(s) && Enabled(s, a)
    ensures SocketSafe(Next(s, a))
  {
    match GroupOf(a) {
      case Outside => OutsideKeepsSocketSafe(s, a);
      case Outgoing => OutgoingKeepsSocketSafe(s, a);
      case Answering => AnsweringKeepsSocketSafe(s, a);
      case Ending => EndingKeepsSocketSafe(s, a);
    }
  }

  // A record whose generation is not the connection's belongs to an earlier one.
  lemma NotCurrentIsOver(s: Client, t: Ticket)
    requires GenerationSafe(s) && Genuine(s, t) && !Current(s, t)
    ensures t.gen < s.m.gen
  {
  }

  lemma NextKeepsLostOver(s: Client, a: Action)
    requires GenerationSafe(s) && SocketSafe(s) && LostAreOver(s) && Enabled(s, a)
    ensures LostAreOver(Next(s, a))
  {
    hide Genuine, Faithful, SocketSafe;
    if s.w.job.Some? && !Current(s, s.w.job.value.t) {
      NotCurrentIsOver(s, s.w.job.value.t);
    }
    match GroupOf(a) {
      case Outside =>
      case Outgoing =>
      case Answering =>
      case Ending =>
    }
  }

  // Moving records from place to place changes nothing as a whole.
  lemma Moving(f: seq<Ticket>, h: seq<Ticket>, a: seq<Ticket>, l: seq<Ticket>)
    ensures Places([], h, a, l + f) == Places(f, h, a, l)
    ensures Places(f, [], a, l + h) == Places(f, h, a, l)
    ensures Places(f, [], a + h, l) == Places(f, h, a, l)
    ensures Places([], [], a, l + f + h) == Places(f, h, a, l)
  {
  }

  lemma Arriving(f: seq<Ticket>, h: seq<Ticket>, a: seq<Ticket>, l: seq<Ticket>, t: Ticket)
    ensures Places(f + [t], h, a, l) == Places(f, h, a, l) + multiset{t}
  {
  }

  lemma OutsideKeepsConserved(s: Client, a: Action)
    requires HandsFull(s) && Conserved(s) && Enabled(s, a) && GroupOf(a).Outside?
    requires !s.m.started && !s.m.stopRequested ==> s.w.phase.NotStarted?
    ensures Conserved(NextOutside(s, a))
  {
    hide Places;
    Moving(s.m.flows, Held(s.w.job), s.h.answered, s.h.lost);
    if a.Consume? {
      var t := Ticket(|s.h.accepted|, a.record, s.m.gen);
      Arriving(s.m.flows, Held(s.w.job), s.h.answered, s.h.lost, t);
      assert multiset(s.h.accepted + [t]) == multiset(s.h.accepted) + multiset{t};
    }
  }

  lemma Taking(f: seq<Ticket>, a: seq<Ticket>, l: seq<Ticket>)
    requires f != []
    ensures Places(f[1..], [f[0]], a, l) == Places(f, [], a, l)
  {
    assert f == [f[0]] + f[1..];
  }

  lemma OutgoingKeepsConserved(s: Client, a: Action)
    requires HandsFull(s) && Conserved(s) && Enabled(s, a) && GroupOf(a).Outgoing?
    ensures Conserved(NextOutgoing(s, a))
  {
    hide Places;
    if a.Take? {
      Taking(s.m.flows, s.h.answered, s.h.lost);
    }
  }

  lemma AnsweringKeepsConserved(s: Client, a: Action)
    requires HandsFull(s) && Conserved(s) && Enabled(s, a) && GroupOf(a).Answering?
    ensures Conserved(NextAnswering(s, a))
  {
    hide Places;
    Moving(s.m.flows, Held(s.w.job), s.h.answered, s.h.lost);
  }

  lemma EndingKeepsConserved(s: Client, a: Action)
    requires HandsFull(s) && Conserved(s) && Enabled(s, a) && GroupOf(a).Ending?
    ensures Conserved(NextEnding(s, a))
  {
    hide Places;
    Moving(s.m.flows, Held(s.w.job), s.h.answered, s.h.lost);
  }

  lemma NextKeepsConserved(s: Client, a: Action)
    requires SocketSafe(s) && Conserved(s) && Enabled(s, a)
    requires s.m.stopRequested ==> !s.m.online
    ensures Conserved(Next(s, a))
  {
    match GroupOf(a) {
      case Outside => OutsideKeepsConserved(s, a);
      case Outgoing => OutgoingKeepsConserved(s, a);
      case Answering => AnsweringKeepsConserved(s, a);
      case Ending => EndingKeepsConserved(s, a);
    }
  }

  lemma LineAppends(s: Client, s': Client)
    requires s'.h.drained == s.h.drained && s'.m.decisions == s.m.decisions && s'.w.job == s.w.job
    requires exists t: Ticket :: s'.m.flows == s.m.flows + [t] && t.no == |s.h.accepted| && |s'.h.accepted| == |s.h.accepted| + 1
    requires Increasing(Line(s)) && forall t | t in Line(s) :: t.no < |s.h.accepted|
    ensures Increasing(Line(s')) && forall t | t in Line(s') :: t.no < |s'.h.accepted|
  {
    var t: Ticket :| s'.m.flows == s.m.flows + [t] && t.no == |s.h.accepted|;
    assert Line(s') == Line(s) + [t];
    forall i | 0 <= i < |Line(s)| ensures Line(s)[i].no < t.no {
      assert Line(s)[i] in Line(s);
    }
  }

  lemma DropMiddle(a: seq<Ticket>, b: seq<Ticket>, c: seq<Ticket>)
    requires Increasing(a + b + c)
    ensures Increasing(a + c)
  {
    var whole, rest := a + b + c, a + c;
    forall i, j | 0 <= i < j < |rest| ensures rest[i].no < rest[j].no {
      var i' := if i < |a| then i else i + |b|;
      var j' := if j < |a| then j else j + |b|;
      assert rest[i] == whole[i'] && rest[j] == whole[j'];
    }
  }

  lemma DropParts(a: seq<Ticket>, d: seq<Ticket>, d': seq<Ticket>, h: seq<Ticket>, h': seq<Ticket>,
                  f: seq<Ticket>, f': seq<Ticket>)
    requires Increasing(a + d + h + f)
    requires (d' == d || d' == []) && (h' == h || h' == []) && (f' == f || f' == [])
    ensures Increasing(a + d' + h' + f')
    ensures forall t | t in a + d' + h' + f' :: t in a + d + h + f
  {
    DropMiddle(a, d, h + f);
    hide Increasing;
    assert a + d + (h + f) == a + d + h + f;
    assert a + [] == a;
    assert a + d' + (h + f) == a + d' + h + f;
    DropMiddle(a + d', h, f);
    assert a + d' + [] == a + d';
    DropMiddle(a + d' + h', f, []);
    assert a + d' + h' + f + [] == a + d' + h' + f;
    assert a + d' + h' + [] == a + d' + h';
  }

  // What every action that neither adds nor moves a record does to the queues.
  predicate Shrinks(s: Client, s': Client) {
    && s'.h.drained == s.h.drained && s'.m.capacity == s.m.capacity && |s'.h.accepted| >= |s.h.accepted|
    && (s'.m.decisions == s.m.decisions || s'.m.decisions == [])
    && (s'.m.flows == s.m.flows || s'.m.flows == [])
    && (Held(s'.w.job) == Held(s.w.job) || Held(s'.w.job) == [])
  }

  // Dropping the decisions, the held record or the queue keeps the rest in order.
  lemma Sublist(s: Client, s': Client)
    requires Ordered(s)
    requires Shrinks(s, s')
    ensures Ordered(s')
  {
    hide Genuine, Faithful, Increasing;
    DropParts(Tickets(s.h.drained), Tickets(s.m.decisions), Tickets(s'.m.decisions), Held(s.w.job), Held(s'.w.job),
              s.m.flows, s'.m.flows);
  }

  lemma OutsideKeepsOrdered(s: Client, a: Action)
    requires HandsFull(s) && Ordered(s) && Enabled(s, a) && GroupOf(a).Outside?
    requires !s.m.started && !s.m.stopRequested ==> s.w.phase.NotStarted?
    ensures Ordered(NextOutside(s, a))
  {
    hide Increasing;
    var s' := NextOutside(s, a);
    if a.Consume? {
      if s'.h.accepted != s.h.accepted {
        LineAppends(s, s');
      }
    } else if a.Drain? {
      assert Tickets(s.h.drained + s.m.decisions) == Tickets(s.h.drained) + Tickets(s.m.decisions);
      assert Line(s') == Line(s);
    } else {
      hide Line;
      Sublist(s, s');
    }
  }

  lemma OutgoingKeepsOrdered(s: Client, a: Action)
    requires HandsFull(s) && Ordered(s) && Enabled(s, a) && GroupOf(a).Outgoing?
    ensures Ordered(NextOutgoing(s, a))
  {
    hide Increasing;
    assert Line(NextOutgoing(s, a)) == Line(s);
  }

  lemma AnsweringShrinks(s: Client, a: Action)
    requires Enabled(s, a) && GroupOf(a).Answering?
    ensures Shrinks(s, NextAnswering(s, a))
  {
  }

  lemma EndingKeepsOrdered(s: Client, a: Action)
    requires HandsFull(s) && Ordered(s) && Enabled(s, a) && GroupOf(a).Ending?
    ensures Ordered(NextEnding(s, a))
  {
    hide Increasing;
    var s' := NextEnding(s, a);
    if s'.m.decisions != s.m.decisions && s'.m.decisions != [] {
      assert Tickets(s'.m.decisions) == Tickets(s.m.decisions) + Held(s.w.job);
      assert Line(s') == Line(s);
    } else {
      hide Line;
      Sublist(s, s');
    }
  }

  lemma NextKeepsOrdered(s: Client, a: Action)
    requires SocketSafe(s) && Ordered(s) && Enabled(s, a)
    ensures Ordered(Next(s, a))
  {
    match GroupOf(a) {
      case Outside => OutsideKeepsOrdered(s, a);
      case Outgoing => OutgoingKeepsOrdered(s, a);
      case Answering => AnsweringShrinks(s, a); Sublist(s, Next(s, a));
      case Ending => EndingKeepsOrdered(s, a);
    }
  }

  /** Every action, from any side and in any order, keeps the whole invariant. */
  lemma NextKeepsInv(s: Client, a: Action)
    requires Inv(s) && Enabled(s, a)
    ensures Inv(Next(s, a))
  {
    NextKeepsGenerationSafe(s, a);
    NextKeepsSocketSafe(s, a);
    NextKeepsConserved(s, a);
    NextKeepsOrdered(s, a);
    NextKeepsLostOver(s, a);
  }

  ghost predicate IsRun(states: seq<Client>, actions: seq<Action>) {
    && |states| == |actions| + 1
    && forall i | 0 <= i < |actions| :: Enabled(states[i], actions[i]) && states[i + 1] == Next(states[i], actions[i])
  }

  lemma {:induction false} RunKeepsInv(states: seq<Client>, actions: seq<Action>)
    requires IsRun(states, actions) && Inv(states[0])
    ensures Inv(states[|actions|])
  {
    hide Inv, Next, Enabled;
    if actions != [] {
      var n := |actions| - 1;
      RunKeepsInv(states[..n + 1], actions[..n]);
      NextKeepsInv(states[n], actions[n]);
    }
  }

  lemma QueuedMeansOnline(s: Client)
    requires GenerationSafe(s)
    ensures s.m.flows != [] || s.m.decisions != [] ==> s.m.online
  {
    if s.m.flows != [] {
      assert Current(s, s.m.flows[0]);
    } else if s.m.decisions != [] {
      assert Current(s, s.m.decisions[0].ticket);
    }
  }

  /** Over any interleaving from a new client: decisions are drained at most once
      each and in the order of acceptance; each is about the record accepted at
      its place, with the model of the generation that accepted it, in which it
      was also queued. Being offline means both queues are empty. */
  lemma DrainedOnceInOrder(states: seq<Client>, actions: seq<Action>, capacity: nat)
    requires IsRun(states, actions) && states[0] == Fresh(capacity)
    ensures var s := states[|actions|];
            && (forall i, j | 0 <= i < j < |s.h.drained| :: s.h.drained[i].ticket.no < s.h.drained[j].ticket.no)
            && (forall q | q in s.h.drained ::
                  && q.ticket.no < |s.h.accepted| && s.h.accepted[q.ticket.no] == q.ticket
                  && q.decision.record == q.ticket.record && q.queuedIn == q.ticket.gen
                  && q.ticket.gen in s.h.links && q.decision.modelVersion == s.h.links[q.ticket.gen].model)
            && (!s.m.online ==> s.m.flows == [] && s.m.decisions == [])
            && |s.m.flows| <= s.m.capacity && |s.m.decisions| <= s.m.capacity
  {
    FreshIsSafe(capacity);
    RunKeepsInv(states, actions);
    var s := states[|actions|];
    QueuedMeansOnline(s);
    hide Conserved, SocketSafe;
    var drained := Tickets(s.h.drained);
    forall i, j | 0 <= i < j < |s.h.drained| ensures s.h.drained[i].ticket.no < s.h.drained[j].ticket.no {
      assert Line(s)[i] == drained[i] && Line(s)[j] == drained[j];
    }
  }

  // Tickets are numbered by place, so none is accepted twice.
  lemma {:induction false} AcceptedOnce(ts: seq<Ticket>)
    requires forall i | 0 <= i < |ts| :: ts[i].no == i
    ensures forall t | t in ts :: multiset(ts)[t] == 1
  {
    if ts != [] {
      var n := |ts| - 1;
      var front := ts[..n];
      AcceptedOnce(front);
      assert ts == front + [ts[n]];
      assert multiset(ts) == multiset(front) + multiset{ts[n]};
      assert ts[n] !in front;
    }
  }

  /** Nothing submitted is unaccounted for: the accepted records are exactly those
      queued, in hand, answered and lost, each in one of these places only, and a
      record is lost only if its generation is over. The failure handler is called
      no more often than the client was set online. */
  lemma SubmittedIsConserved(states: seq<Client>, actions: seq<Action>, capacity: nat)
    requires IsRun(states, actions) && states[0] == Fresh(capacity)
    ensures var s := states[|actions|];
            && s.count.submitted == |s.h.accepted|
            && multiset(s.h.accepted)
               == multiset(s.m.flows) + multiset(Held(s.w.job)) + multiset(s.h.answered) + multiset(s.h.lost)
            && (forall t | t in s.h.accepted :: multiset(s.h.accepted)[t] == 1)
            && |s.h.answered| == s.count.normal + s.count.anomaly + s.count.protocolErrors
            && (forall t | t in s.h.lost :: t.gen < s.m.gen)
            && (s.w.job.Some? <==> s.w.phase.Holds())
            && s.count.timeouts <= s.h.handlerCalls <= s.h.onlines
  {
    FreshIsSafe(capacity);
    RunKeepsInv(states, actions);
    AcceptedOnce(states[|actions|].h.accepted);
  }

  // Step i takes a connection down because of a failed transport.
  predicate FailsAt(states: seq<Client>, actions: seq<Action>, i: nat)
    requires i < |actions| < |states|
  {
    actions[i].FailTransport? && states[i + 1].w.phase.Notifying?
  }

  // Step j calls the failure handler for the connection taken down at step i.
  ghost predicate Reports(states: seq<Client>, actions: seq<Action>, i: nat, j: nat)
    requires i < j < |actions| < |states|
  {
    && FailsAt(states, actions, i) && actions[j].Notify?
    && forall m | i < m <= j :: states[m].w.phase.Notifying?
  }

  lemma FailureStep(s: Client, a: Action)
    requires Inv(s) && Enabled(s, a)
    ensures s.m.gen <= Next(s, a).m.gen
    ensures a.FailTransport? && Next(s, a).w.phase.Notifying? ==> s.m.online && s.m.gen < Next(s, a).m.gen
    ensures Next(s, a).w.phase.Notifying? ==> a.FailTransport? || s.w.phase.Notifying?
    ensures a.Notify? ==> s.w.phase.Notifying? && !Next(s, a).w.phase.Notifying?
  {
    hide Genuine, Faithful, Ordered, Conserved, LostAreOver;
    match GroupOf(a) {
      case Outside =>
      case Outgoing =>
      case Answering =>
      case Ending =>
    }
  }

  // Everything known of step m of a run from a new client.
  lemma RunStep(states: seq<Client>, actions: seq<Action>, m: nat)
    requires IsRun(states, actions) && Inv(states[0]) && m < |actions|
    ensures Inv(states[m]) && Enabled(states[m], actions[m]) && states[m + 1] == Next(states[m], actions[m])
  {
    hide Inv, Next, Enabled;
    RunKeepsInv(states[..m + 1], actions[..m]);
  }

  lemma {:induction false} GenerationsGrow(states: seq<Client>, actions: seq<Action>, i: nat, j: nat)
    requires IsRun(states, actions) && Inv(states[0]) && i <= j <= |actions|
    ensures states[i].m.gen <= states[j].m.gen
    decreases j - i
  {
    hide Inv, Next, Enabled;
    if i < j {
      GenerationsGrow(states, actions, i, j - 1);
      RunStep(states, actions, j - 1);
      FailureStep(states[j - 1], actions[j - 1]);
    }
  }

  // While the worker is about to call the handler, the failure is behind it.
  lemma {:induction false} FailureBehind(states: seq<Client>, actions: seq<Action>, j: nat) returns (i: nat)
    requires IsRun(states, actions) && Inv(states[0]) && !states[0].w.phase.Notifying?
    requires j <= |actions| && states[j].w.phase.Notifying?
    ensures i < j && FailsAt(states, actions, i) && forall m | i < m <= j :: states[m].w.phase.Notifying?
  {
    hide Inv, Next, Enabled;
    RunStep(states, actions, j - 1);
    FailureStep(states[j - 1], actions[j - 1]);
    if states[j - 1].w.phase.Notifying? && !actions[j - 1].FailTransport? {
      i := FailureBehind(states, actions, j - 1);
    } else {
      i := j - 1;
    }
  }

  /** Each call of the failure handler is for a connection of its own: it follows a
      failure that took down the connection of that moment, and of two calls the
      later one is for a later generation. */
  lemma HandlerOncePerConnection(states: seq<Client>, actions: seq<Action>, capacity: nat, j: nat, j': nat)
    requires IsRun(states, actions) && states[0] == Fresh(capacity)
    requires j < j' < |actions| && actions[j].Notify? && actions[j'].Notify?
    ensures exists i: nat, i': nat | i < j < i' < j' ::
              && Reports(states, actions, i, j) && Reports(states, actions, i', j')
              && states[i].m.online && states[i'].m.online && states[i].m.gen < states[i'].m.gen
  {
    hide Inv, Next, Enabled;
    FreshIsSafe(capacity);
    RunStep(states, actions, j);
    FailureStep(states[j], actions[j]);
    RunStep(states, actions, j');
    FailureStep(states[j'], actions[j']);
    var i := FailureBehind(states, actions, j);
    var i' := FailureBehind(states, actions, j');
    assert i' > j;
    RunStep(states, actions, i);
    FailureStep(states[i], actions[i]);
    RunStep(states, actions, i');
    FailureStep(states[i'], actions[i']);
    GenerationsGrow(states, actions, i + 1, i');
    assert Reports(states, actions, i, j) && Reports(states, actions, i', j');
  }

  function Offers(actions: seq<Action>): (r: nat) {
    if actions == [] then 0
    else Offers(actions[..|actions| - 1]) + (if actions[|actions| - 1].Consume? then 1 else 0)
  }

  lemma OfferStep(s: Client, a: Action)
    requires Enabled(s, a)
    ensures var n, n' := s.count, Next(s, a).count;
            n'.submitted + n'.unavailableDropped + n'.queueFullDropped
            == n.submitted + n.unavailableDropped + n.queueFullDropped + (if a.Consume? then 1 else 0)
  {
    match GroupOf(a) {
      case Outside =>
      case Outgoing =>
      case Answering =>
      case Ending =>
    }
  }

  /** Every record offered is counted once: as submitted, or as dropped. */
  lemma {:induction false} OffersAddUp(states: seq<Client>, actions: seq<Action>, capacity: nat)
    requires IsRun(states, actions) && states[0] == Fresh(capacity)
    ensures var n := states[|actions|].count;
            n.submitted + n.unavailableDropped + n.queueFullDropped == Offers(actions)
  {
    hide Next, Enabled;
    if actions != [] {
      var n := |actions| - 1;
      OffersAddUp(states[..n + 1], actions[..n], capacity);
      OfferStep(states[n], actions[n]);
    }
  }

  /** Whenever a request is about to be sent, the socket is connected to the
      endpoint of the record's own generation and owes no reply; a reply is only
      awaited on a socket that owes one. */
  lemma SocketDiscipline(states: seq<Client>, actions: seq<Action>, capacity: nat)
    requires IsRun(states, actions) && states[0] == Fresh(capacity)
    ensures var s := states[|actions|];
            && (s.w.phase.Sending? ==>
                  && s.w.socket.Some? && s.w.job.Some? && !s.w.socket.value.awaitingReply
                  && s.w.socket.value.gen == s.w.job.value.t.gen && s.w.job.value.t.gen in s.h.links
                  && s.w.socket.value.endpoint == s.h.links[s.w.job.value.t.gen].endpoint)
            && (s.w.phase.Awaiting? ==> s.w.socket.Some? && s.w.socket.value.awaitingReply)
            && (s.w.socket.Some? && s.w.socket.value.awaitingReply ==> s.w.phase.Awaiting?)
  {
    FreshIsSafe(capacity);
    RunKeepsInv(states, actions);
    hide Conserved, Ordered;
  }

  // ---- stopping ----

  // An upper bound on the worker's own steps until it exits, once stopped.
  function Rank(p: Phase): (r: nat) {
    match p
    case NotStarted | Exited => 0
    case Idle => 1
    case Erring | Normal | Deciding(_) | Notifying(_) => 2
    case Rejected | Failing(_) => 3
    case Parsing => 4
    case Replied => 5
    case Awaiting => 6
    case Sending => 7
    case Taken => 8
  }

  /** After stop the client never comes online again, and every step the worker
      takes brings it nearer to its exit. */
  lemma StopIsFinal(s: Client, a: Action)
    requires Inv(s) && s.m.stopRequested && Enabled(s, a)
    ensures var s' := Next(s, a);
            && s'.m.stopRequested && !s'.m.online
            && (if IsWorkerStep(a) then Rank(s'.w.phase) < Rank(s.w.phase) else s'.w.phase == s.w.phase)
  {
    hide Genuine, Faithful, Ordered, Conserved;
    match GroupOf(a) {
      case Outside =>
      case Outgoing =>
      case Answering =>
      case Ending =>
    }
  }

  // The step a worker can always take once stopped, from any wait or phase.
  function ExitPath(s: Client): (r: Action) {
    match s.w.phase
    case Taken => Prepare(true)
    case Sending => Send(TimedOut)
    case Awaiting => Receive(TimedOut)
    case Replied => CheckReply
    case Parsing => Parse(BadReply)
    case Rejected => CheckRejected
    case Erring => CountError
    case Normal => CountNormal
    case Deciding(_) => Decide
    case Failing(_) => FailTransport
    case Notifying(_) => Notify
    case _ => Exit
  }

  lemma StoppedWorkerIsNeverStuck(s: Client)
    requires Inv(s) && s.m.stopRequested && !s.w.phase.NotStarted? && !s.w.phase.Exited?
    ensures IsWorkerStep(ExitPath(s)) && Enabled(s, ExitPath(s))
  {
    hide Genuine, Faithful, Ordered, Conserved;
  }

  /** Without a stop the worker only ever waits for a record, or for room for a
      decision that is still current. */
  lemma WorkerWaitsOnlyTwice(s: Client)
    requires Inv(s) && !s.w.phase.NotStarted? && !s.w.phase.Exited?
    requires forall a | IsWorkerStep(a) :: !Enabled(s, a)
    ensures !s.m.stopRequested
    ensures || (s.w.phase.Idle? && s.m.flows == [])
            || (s.w.phase.Deciding? && |s.m.decisions| == s.m.capacity && Current(s, s.w.job.value.t))
  {
    hide Genuine, Faithful, Conserved, Increasing, Line;
    QueuedMeansOnline(s);
    assert !Enabled(s, ExitPath(s)) && !Enabled(s, Take);
  }

  function WorkerSteps(actions: seq<Action>): (r: nat) {
    if actions == [] then 0
    else WorkerSteps(actions[..|actions| - 1]) + (if IsWorkerStep(actions[|actions| - 1]) then 1 else 0)
  }

  lemma StoppedIsOffline(s: Client)
    requires Inv(s) && s.m.stopRequested
    ensures !s.m.online
  {
  }

  /** Stopped at any point of any run, the worker takes at most eight more steps,
      however the other threads interleave with it. */
  lemma {:induction false} StoppedWorkerExits(states: seq<Client>, actions: seq<Action>)
    requires IsRun(states, actions) && Inv(states[0]) && states[0].m.stopRequested
    ensures states[|actions|].m.stopRequested && !states[|actions|].m.online
    ensures WorkerSteps(actions) + Rank(states[|actions|].w.phase) <= Rank(states[0].w.phase) <= 8
  {
    hide Inv, Next, Enabled;
    if actions == [] {
      StoppedIsOffline(states[0]);
    } else {
      var n := |actions| - 1;
      StoppedWorkerExits(states[..n + 1], actions[..n]);
      RunKeepsInv(states[..n + 1], actions[..n]);
      StopIsFinal(states[n], actions[n]);
    }
  }
}
