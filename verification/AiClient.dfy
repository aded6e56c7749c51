/** The client object itself: the fields its mutex guards, updated in place. Each
    method below is one critical section, and is proved to be one action of the
    transition system. */
module AiClient {
  import opened Common
  import opened Pipeline
  import opened AiProtocol

  function Records(tickets: seq<Ticket>): (r: seq<FlowRecord>) {
    seq(|tickets|, i requires 0 <= i < |tickets| => tickets[i].record)
  }

  function DecisionsOf(queued: seq<Queued>): (r: seq<AiDecision>) {
    seq(|queued|, i requires 0 <= i < |queued| => queued[i].decision)
  }

  // What the worker takes from the queue, with the connection it belongs to.
  datatype Work = Work(record: FlowRecord, gen: nat, link: Link)

  lemma RunGoesOn(states: seq<Client>, actions: seq<Action>, a: Action)
    requires AiProtocol.IsRun(states, actions) && Enabled(states[|actions|], a)
    ensures AiProtocol.IsRun(states + [Next(states[|actions|], a)], actions + [a])
  {
    hide Enabled, Next;
  }

  lemma OldestIsCurrent(s: Client)
    requires Inv(s)
    ensures s.m.flows != [] ==> s.m.flows[0].gen == s.m.gen
  {
    if s.m.flows != [] {
      assert Current(s, s.m.flows[0]);
    }
  }

  // The worker's own variables change by its own actions only.
  lemma OutsideSparesWorker(s: Client, a: Action)
    requires Inv(s) && Enabled(s, a)
    ensures GroupOf(a).Outside? && !s.w.phase.NotStarted? ==> Next(s, a).w == s.w
    ensures GroupOf(a).Outside? ==> Next(s, a).h.handlerCalls == s.h.handlerCalls
  {
  }

  class AsyncAiClient {
    const queueCapacity: nat
    var pendingFlows: seq<FlowRecord>
    var pendingDecisions: seq<AiDecision>
    var started: bool
    var stopRequested: bool
    var online: bool
    var generation: nat
    var endpoint: string
    var modelVersion: string
    var stats: Counters
    // The state of the whole protocol, worker and history included.
    ghost var view: Client
    // How it got there.
    ghost var states: seq<Client>
    ghost var actions: seq<Action>

    ghost predicate Matches()
      reads this
    {
      && view.m == Shared(queueCapacity, online, stopRequested, started, generation, Link(endpoint, modelVersion),
                          view.m.flows, view.m.decisions)
      && view.count == stats
      && pendingFlows == Records(view.m.flows)
      && pendingDecisions == DecisionsOf(view.m.decisions)
    }

    // The object got here by a run of the transition system.
    ghost predicate Traced()
      reads this
    {
      AiProtocol.IsRun(states, actions) && states[0] == AiProtocol.Fresh(queueCapacity) && view == states[|actions|]
    }

    ghost predicate Valid()
      reads this
    {
      Inv(view) && Matches() && Traced()
    }

    constructor (capacity: nat)
      ensures Valid() && view == AiProtocol.Fresh(capacity) && actions == [] && queueCapacity == capacity
    {
      queueCapacity := capacity;
      pendingFlows, pendingDecisions := [], [];
      started, stopRequested, online, generation := false, false, false, 0;
      endpoint, modelVersion := "", "";
      stats := Counters(0, 0, 0, 0, 0, 0, 0);
      view := AiProtocol.Fresh(capacity);
      states, actions := [view], [];
      FreshIsSafe(capacity);
    }

    // What changed since is one action of the transition system.
    twostate predicate Took(a: Action)
      reads this
    {
      Enabled(old(view), a) && view == Next(old(view), a) && actions == old(actions) + [a]
    }

    // It was a call from outside, which leaves a started worker's variables alone.
    twostate predicate Called()
      reads this
    {
      && |actions| == |old(actions)| + 1 && old(actions) <= actions && GroupOf(actions[|old(actions)|]).Outside?
      && (!old(view).w.phase.NotStarted? ==> view.w == old(view).w) && view.h.handlerCalls == old(view).h.handlerCalls
    }

    ghost method Advance(a: Action)
      requires Inv(view) && Traced() && Enabled(view, a)
      modifies `view, `states, `actions
      ensures Inv(view) && Traced()
      ensures Took(a) && (GroupOf(a).Outside? ==> Called())
    {
      hide Inv, Enabled, Next;
      OutsideSparesWorker(view, a);
      NextKeepsInv(view, a);
      RunGoesOn(states, actions, a);
      view := Next(view, a);
      states, actions := states + [view], actions + [a];
    }

    // ---- called from other threads ----

    method Start()
      requires Valid()
      modifies this
      ensures Valid() && Took(Action.Start) && Called()
    {
      hide Inv, AiProtocol.IsRun;
      Advance(Action.Start);
      if started || stopRequested {
        return;
      }
      started := true;
    }

    method SetOnline(to: string, model: string)
      requires Valid()
      modifies this
      ensures Valid() && Took(Action.SetOnline(Link(to, model))) && Called()
      ensures old(stopRequested) ==> online == old(online) && generation == old(generation)
      ensures !old(stopRequested) ==>
                online && generation == old(generation) + 1 && pendingFlows == [] && pendingDecisions == []
    {
      hide Inv, AiProtocol.IsRun;
      Advance(Action.SetOnline(Link(to, model)));
      if stopRequested {
        return;
      }
      endpoint := to;
      modelVersion := model;
      generation := generation + 1;
      pendingFlows := [];
      pendingDecisions := [];
      online := true;
    }

    method SetOffline()
      requires Valid()
      modifies this
      ensures Valid() && Took(Action.SetOffline) && Called()
      ensures !online && generation == old(generation) + 1 && pendingFlows == [] && pendingDecisions == []
    {
      hide Inv, AiProtocol.IsRun;
      Advance(Action.SetOffline);
      online := false;
      generation := generation + 1;
      pendingFlows := [];
      pendingDecisions := [];
    }

    // Returns whether there is a worker left to join.
    method Stop() returns (join: bool)
      requires Valid()
      modifies this
      ensures Valid() && Took(Action.Stop) && Called()
      ensures stopRequested && !online && !started && join == old(started)
    {
      hide Inv, AiProtocol.IsRun;
      Advance(Action.Stop);
      stopRequested := true;
      online := false;
      generation := generation + 1;
      pendingFlows := [];
      pendingDecisions := [];
      if !started {
        return false;
      }
      started := false;
      join := true;
    }

    method Consume(record: FlowRecord) returns (ok: bool)
      requires Valid()
      modifies this
      ensures Valid() && Took(Action.Consume(record)) && Called()
      ensures ok <==> old(online && !stopRequested && |pendingFlows| < queueCapacity)
      ensures pendingFlows == if ok then old(pendingFlows) + [record] else old(pendingFlows)
    {
      hide Inv, AiProtocol.IsRun;
      Advance(Action.Consume(record));
      if !online || stopRequested {
        stats := stats.(unavailableDropped := stats.unavailableDropped + 1);
      } else if |pendingFlows| >= queueCapacity {
        stats := stats.(queueFullDropped := stats.queueFullDropped + 1);
      } else {
        pendingFlows := pendingFlows + [record];
        stats := stats.(submitted := stats.submitted + 1);
        return true;
      }
      ok := false;
    }

    method DrainDecisions() returns (drained: seq<AiDecision>)
      requires Valid()
      modifies this
      ensures Valid() && Took(Action.Drain) && Called()
      ensures drained == old(pendingDecisions) && pendingDecisions == []
      ensures pendingFlows == old(pendingFlows)
    {
      hide Inv, AiProtocol.IsRun;
      Advance(Action.Drain);
      drained := [];
      while pendingDecisions != []
        invariant drained + pendingDecisions == old(pendingDecisions)
        modifies `pendingDecisions
        decreases |pendingDecisions|
      {
        drained := drained + [pendingDecisions[0]];
        pendingDecisions := pendingDecisions[1..];
      }
    }

    method OneCall()
      requires Valid() && !view.w.phase.NotStarted?
      modifies this
      ensures Valid() && Called()
    {
      hide Inv, AiProtocol.IsRun, AsyncAiClient.Valid, AsyncAiClient.Took, AsyncAiClient.Called;
      var which: int :| true;
      if which == 0 {
        var record: FlowRecord :| true;
        var ok := Consume(record);
      } else if which == 1 {
        var drained := DrainDecisions();
      } else if which == 2 {
        var to: string, model: string :| true;
        SetOnline(to, model);
      } else if which == 3 {
        SetOffline();
      } else if which == 4 {
        Start();
      } else {
        var join := Stop();
      }
    }

    // What other threads do while the worker holds no lock: any calls, in any
    // order, none of which touches the worker's own variables.
    method Interfere()
      requires Valid() && !view.w.phase.NotStarted?
      modifies this
      ensures Valid() && view.w == old(view.w) && old(actions) <= actions
      ensures view.h.handlerCalls == old(view.h.handlerCalls)
      ensures forall i | |old(actions)| <= i < |actions| :: GroupOf(actions[i]).Outside?
    {
      hide Inv, AiProtocol.IsRun;
      var calls: nat :| true;
      for i := 0 to calls
        invariant Valid() && view.w == old(view.w) && old(actions) <= actions
        invariant view.h.handlerCalls == old(view.h.handlerCalls)
        invariant forall i | |old(actions)| <= i < |actions| :: GroupOf(actions[i]).Outside?
      {
        OneCall();
      }
    }

    // ---- the worker's sections ----

    // The record in the worker's hands is the one it took.
    ghost predicate Holding(work: Work)
      reads this
    {
      && view.w.job.Some? && view.w.job.value.t.record == work.record
      && view.w.job.value.t.gen == work.gen && view.w.job.value.link == work.link
    }

    // Called once the wait is over: stop asked for, or online with a record queued.
    method TakeRecord() returns (work: Option<Work>)
      requires Valid() && view.w.phase.Idle?
      requires stopRequested || (online && pendingFlows != [])
      modifies this
      ensures Valid()
      ensures old(stopRequested) ==> work.None? && Took(Action.Exit) && view.w.phase.Exited? && view.w.socket.None?
      ensures !old(stopRequested) ==>
                && Took(Action.Take) && pendingFlows == old(pendingFlows[1..])
                && work == Some(Work(old(pendingFlows[0]), generation, Link(endpoint, modelVersion)))
                && view.w == Worker(Taken, view.w.job, old(view.w.socket)) && Holding(work.value)
    {
      hide Inv, AiProtocol.IsRun;
      OldestIsCurrent(view);
      if stopRequested {
        Advance(Action.Exit);
        return None;
      }
      Advance(Action.Take);
      work := Some(Work(pendingFlows[0], generation, Link(endpoint, modelVersion)));
      pendingFlows := pendingFlows[1..];
    }

    // Replaces a socket of another generation; connecting may throw.
    method PrepareSocket(socket: Option<Socket>, work: Work, connects: bool) returns (next: Option<Socket>)
      requires Valid() && view.w.phase.Taken? && Holding(work) && socket == view.w.socket
      modifies `view, `states, `actions
      ensures Valid() && Took(Prepare(connects)) && Holding(work)
      ensures next.Some? ==> next.value.gen == work.gen && view.w == Worker(Sending, old(view.w.job), next)
      ensures next.None? ==> view.w == Worker(Failing(false), old(view.w.job), None)
    {
      hide Inv, AiProtocol.IsRun;
      Advance(Prepare(connects));
      if socket.Some? && socket.value.gen == work.gen {
        next := socket;
      } else if connects {
        next := Some(Socket(work.gen, work.link.endpoint, false));
      } else {
        next := None;
      }
    }

    // A request that is not sent in time, or throws, costs the socket.
    method SendRequest(socket: Socket, work: Work, sent: Transfer) returns (next: Option<Socket>)
      requires Valid() && view.w == Worker(Sending, view.w.job, Some(socket)) && Holding(work)
      modifies `view, `states, `actions
      ensures Valid() && Took(Send(sent)) && Holding(work)
      ensures next == (if sent.Done? then Some(socket.(awaitingReply := true)) else None)
      ensures view.w == Worker(if sent.Done? then Awaiting else Failing(sent.TimedOut?), old(view.w.job), next)
    {
      hide Inv, AiProtocol.IsRun;
      Advance(Send(sent));
      next := if sent.Done? then Some(socket.(awaitingReply := true)) else None;
    }

    method ReceiveReply(socket: Socket, work: Work, received: Transfer) returns (next: Option<Socket>)
      requires Valid() && view.w == Worker(Awaiting, view.w.job, Some(socket)) && Holding(work)
      modifies `view, `states, `actions
      ensures Valid() && Took(Receive(received)) && Holding(work)
      ensures next == (if received.Done? then Some(socket.(awaitingReply := false)) else None)
      ensures view.w == Worker(if received.Done? then Replied else Failing(received.TimedOut?), old(view.w.job), next)
    {
      hide Inv, AiProtocol.IsRun;
      Advance(Receive(received));
      next := if received.Done? then Some(socket.(awaitingReply := false)) else None;
    }

    // Whether the record in hand still belongs to the connection; asked after a
    // reply arrived and again before a rejected one is counted.
    method StillCurrent(work: Work) returns (current: bool)
      requires Valid() && (view.w.phase.Replied? || view.w.phase.Rejected?) && Holding(work)
      modifies `view, `states, `actions
      ensures Valid() && current == (online && generation == work.gen)
      ensures Took(if old(view.w.phase.Replied?) then Action.CheckReply else Action.CheckRejected)
      ensures current ==>
                Holding(work) && view.w == old(view.w).(phase := if old(view.w.phase.Replied?) then Parsing else Erring)
      ensures !current ==> view.w == Worker(Idle, None, None)
    {
      hide Inv, AiProtocol.IsRun;
      Advance(if view.w.phase.Replied? then Action.CheckReply else Action.CheckRejected);
      current := online && generation == work.gen;
    }

    // The decision an anomaly reply stands for; parsing itself is not modelled.
    method ParseReply(work: Work, reply: Reply) returns (decision: Option<AiDecision>)
      requires Valid() && view.w.phase.Parsing? && Holding(work)
      modifies `view, `states, `actions
      ensures Valid() && Took(Parse(reply)) && Holding(work)
      ensures decision.Some? <==> reply.AnomalyReply?
      ensures decision.Some? ==> decision.value == AiDecision(work.record, reply.score, reply.threshold, work.link.model)
      ensures view.w == old(view.w).(phase := if reply.BadReply? then Rejected else if reply.NormalReply? then Normal
                                              else Deciding(AiDecision(work.record, reply.score, reply.threshold, work.link.model)))
    {
      hide Inv, AiProtocol.IsRun;
      Advance(Parse(reply));
      decision := if reply.AnomalyReply? then Some(AiDecision(work.record, reply.score, reply.threshold, work.link.model))
                  else None;
    }

    method CountNormal(work: Work)
      requires Valid() && view.w.phase.Normal? && Holding(work)
      modifies this
      ensures Valid() && Took(Action.CountNormal) && view.w == Worker(Idle, None, old(view.w.socket))
      ensures stats.normal == old(stats.normal) + (if online && generation == work.gen then 1 else 0)
    {
      hide Inv, AiProtocol.IsRun;
      Advance(Action.CountNormal);
      if online && generation == work.gen {
        stats := stats.(normal := stats.normal + 1);
      }
    }

    method CountProtocolError()
      requires Valid() && view.w.phase.Erring? && view.w.job.Some?
      modifies this
      ensures Valid() && Took(Action.CountError) && view.w == Worker(Idle, None, old(view.w.socket))
      ensures stats.protocolErrors == old(stats.protocolErrors) + 1
    {
      hide Inv, AiProtocol.IsRun;
      Advance(Action.CountError);
      stats := stats.(protocolErrors := stats.protocolErrors + 1);
    }

    predicate RoomOrOver(gen: nat)
      reads this
    {
      stopRequested || !online || generation != gen || |pendingDecisions| < queueCapacity
    }

    // Called once the wait for room is over.
    method QueueDecision(decision: AiDecision, work: Work) returns (queued: bool)
      requires Valid() && view.w.phase == Deciding(decision) && Holding(work) && RoomOrOver(work.gen)
      modifies this
      ensures Valid() && Took(Action.Decide)
      ensures queued <==> old(!stopRequested && online && generation == work.gen)
      ensures pendingDecisions == if queued then old(pendingDecisions) + [decision] else old(pendingDecisions)
      ensures pendingFlows == old(pendingFlows)
      ensures view.w == Worker(Idle, None, if queued then old(view.w.socket) else None)
    {
      hide Inv, AiProtocol.IsRun;
      Advance(Action.Decide);
      if stopRequested || !online || generation != work.gen {
        return false;
      }
      pendingDecisions := pendingDecisions + [decision];
      stats := stats.(anomaly := stats.anomaly + 1);
      queued := true;
    }

    // Takes the connection down unless it is a later one than the one that failed.
    method FailTransport(work: Work) returns (failed: bool)
      requires Valid() && view.w.phase.Failing? && Holding(work)
      modifies this
      ensures Valid() && Took(Action.FailTransport)
      ensures failed <==> old(online && generation == work.gen)
      ensures view.h.handlerCalls == old(view.h.handlerCalls)
      ensures failed ==> !online && generation == work.gen + 1 && pendingFlows == [] && pendingDecisions == []
      ensures !failed ==> online == old(online) && generation == old(generation)
      ensures view.w == Worker(if failed then Notifying(old(view.w.phase.timedOut)) else Idle, None, old(view.w.socket))
    {
      hide Inv, AiProtocol.IsRun;
      Advance(Action.FailTransport);
      if !online || generation != work.gen {
        return false;
      }
      online := false;
      generation := generation + 1;
      pendingFlows := [];
      pendingDecisions := [];
      failed := true;
    }

    // After the lock is released: count a timeout and call the failure handler.
    method ReportFailure(timedOut: bool)
      requires Valid() && view.w.phase == Notifying(timedOut)
      modifies this
      ensures Valid() && Took(Action.Notify) && view.w == old(view.w).(phase := Idle)
      ensures view.h.handlerCalls == old(view.h.handlerCalls) + 1
      ensures stats.timeouts == old(stats.timeouts) + (if timedOut then 1 else 0)
    {
      hide Inv, AiProtocol.IsRun;
      Advance(Action.Notify);
      if timedOut {
        stats := stats.(timeouts := stats.timeouts + 1);
      }
    }

    // ---- the worker ----

    // A wait on the condition variable, for at most so many wake-ups.
    method WaitForRecord(wakeUps: nat) returns (over: bool)
      requires Valid() && view.w.phase.Idle?
      modifies this
      ensures Valid() && view.w == old(view.w) && old(actions) <= actions
      ensures over <==> stopRequested || (online && pendingFlows != [])
    {
      hide Inv, AiProtocol.IsRun;
      var left := wakeUps;
      while left > 0 && !stopRequested && !(online && pendingFlows != [])
        invariant Valid() && view.w == old(view.w) && old(actions) <= actions
      {
        Interfere();
        left := left - 1;
      }
      over := stopRequested || (online && pendingFlows != []);
    }

    method WaitForRoom(gen: nat, wakeUps: nat) returns (over: bool)
      requires Valid() && view.w.phase.Deciding?
      modifies this
      ensures Valid() && view.w == old(view.w) && old(actions) <= actions
      ensures over <==> RoomOrOver(gen)
    {
      hide Inv, AiProtocol.IsRun;
      var left := wakeUps;
      while left > 0 && !RoomOrOver(gen)
        invariant Valid() && view.w == old(view.w) && old(actions) <= actions
      {
        Interfere();
        left := left - 1;
      }
      over := RoomOrOver(gen);
    }

    // A failed transport, with other threads running before the handler is called.
    // It is called if and only if the connection that failed was still up.
    method GiveUp(work: Work, timedOut: bool) returns (reported: bool)
      requires Valid() && view.w.phase == Failing(timedOut) && Holding(work)
      modifies this
      ensures Valid() && view.w == Worker(Idle, None, old(view.w.socket)) && old(actions) <= actions
      ensures reported <==> old(online && generation == work.gen)
      ensures view.h.handlerCalls == old(view.h.handlerCalls) + (if reported then 1 else 0)
    {
      hide Inv, AiProtocol.IsRun, AsyncAiClient.Valid;
      reported := FailTransport(work);
      if reported {
        Interfere();
        ReportFailure(timedOut);
      }
    }

    // Sends the request and waits for the reply. Returns whether there is one; if
    // not, the record has been put down.
    method Exchange(socket: Option<Socket>, work: Work) returns (next: Option<Socket>, replied: bool)
      requires Valid() && view.w.phase.Taken? && Holding(work) && socket == view.w.socket
      modifies this
      ensures Valid() && old(actions) <= actions && view.w.socket == next
      ensures if replied then view.w.phase.Replied? && Holding(work) else view.w == Worker(Idle, None, None)
    {
      hide Inv, AiProtocol.IsRun, AsyncAiClient.Valid;
      var connects: bool, sent: Transfer, received: Transfer :| true;
      next := PrepareSocket(socket, work, connects);
      Interfere();
      if next.None? {
        var reported := GiveUp(work, false);
        return None, false;
      }
      next := SendRequest(next.value, work, sent);
      Interfere();
      if next.None? {
        var reported := GiveUp(work, sent.TimedOut?);
        return None, false;
      }
      next := ReceiveReply(next.value, work, received);
      Interfere();
      if next.None? {
        var reported := GiveUp(work, received.TimedOut?);
        return None, false;
      }
      replied := true;
    }

    method Reject(socket: Option<Socket>, work: Work) returns (next: Option<Socket>)
      requires Valid() && view.w.phase.Rejected? && Holding(work) && socket == view.w.socket
      modifies this
      ensures Valid() && old(actions) <= actions && view.w == Worker(Idle, None, next)
    {
      hide Inv, AiProtocol.IsRun, AsyncAiClient.Valid;
      var current := StillCurrent(work);
      if !current {
        return None;
      }
      Interfere();
      CountProtocolError();
      next := socket;
    }

    // Handles a reply. Returns false when the worker is still waiting for room.
    method HandleReply(socket: Option<Socket>, work: Work, wakeUps: nat) returns (next: Option<Socket>, done: bool)
      requires Valid() && view.w.phase.Replied? && Holding(work) && socket == view.w.socket
      modifies this
      ensures Valid() && old(actions) <= actions && view.w.socket == next
      ensures if done then view.w.phase.Idle? && view.w.job.None?
              else view.w.phase.Deciding? && Holding(work) && !RoomOrOver(work.gen)
    {
      hide Inv, AiProtocol.IsRun, AsyncAiClient.Valid;
      var reply: Reply :| true;
      var current := StillCurrent(work);
      Interfere();
      if !current {
        return None, true;
      }
      var decision := ParseReply(work, reply);
      Interfere();
      if reply.BadReply? {
        next := Reject(socket, work);
        return next, true;
      }
      if reply.NormalReply? {
        CountNormal(work);
        return socket, true;
      }
      var room := WaitForRoom(work.gen, wakeUps);
      if !room {
        return socket, false;
      }
      var queued := QueueDecision(decision.value, work);
      next, done := if queued then socket else None, true;
    }

    /** The worker thread, for at most so many records and so many wake-ups in each
        wait: whatever the network answers and the other threads do in between, it
        follows the transition system, and stops only at its exit or in a wait. */
    method Run(records: nat, wakeUps: nat) returns (exited: bool)
      requires Valid() && view.w == Worker(Idle, None, None)
      modifies this
      ensures Valid() && old(actions) <= actions
      ensures exited ==> view.w.phase.Exited? && view.w.socket.None?
      ensures !exited ==> || (view.w.phase.Idle? && view.w.job.None?)
                          || (view.w.phase.Deciding? && view.w.job.Some? && !RoomOrOver(view.w.job.value.t.gen))
    {
      hide Inv, AiProtocol.IsRun, AsyncAiClient.Valid;
      var socket: Option<Socket> := None;
      for i := 0 to records
        invariant Valid() && old(actions) <= actions
        invariant view.w == Worker(Idle, None, socket)
      {
        var over := WaitForRecord(wakeUps);
        if !over {
          return false;
        }
        var work := TakeRecord();
        if work.None? {
          return true;
        }
        Interfere();
        var replied, done;
        socket, replied := Exchange(socket, work.value);
        if replied {
          socket, done := HandleReply(socket, work.value, wakeUps);
          if !done {
            return false;
          }
        }
      }
      exited := false;
    }
  }

  /** What the protocol promises over runs holds of every client object: whatever
      calls and worker steps brought it to its state were a run from a new client. */
  lemma ObjectsKeepPromises(client: AsyncAiClient)
    requires client.Valid()
    ensures var h := client.view.h;
            && (forall i, j | 0 <= i < j < |h.drained| :: h.drained[i].ticket.no < h.drained[j].ticket.no)
            && (forall q | q in h.drained ::
                  && q.ticket.no < |h.accepted| && h.accepted[q.ticket.no] == q.ticket
                  && q.decision.record == q.ticket.record && q.queuedIn == q.ticket.gen)
            && client.stats.submitted == |h.accepted|
            && client.stats.submitted + client.stats.unavailableDropped + client.stats.queueFullDropped
               == Offers(client.actions)
    ensures |client.pendingFlows| <= client.queueCapacity && |client.pendingDecisions| <= client.queueCapacity
    ensures !client.online ==> client.pendingFlows == [] && client.pendingDecisions == []
  {
    hide Inv;
    DrainedOnceInOrder(client.states, client.actions, client.queueCapacity);
    SubmittedIsConserved(client.states, client.actions, client.queueCapacity);
    OffersAddUp(client.states, client.actions, client.queueCapacity);
    hide AiProtocol.IsRun;
  }
}
