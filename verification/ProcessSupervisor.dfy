/** The supervisor object: its fields, timers and output buffer, updated in place
    by the event handlers, each proved to be one step of the state machine. */
module ProcessSupervisor {
  import opened Common
  import opened LineFraming
  import opened Supervision

  // What each line announces.
  function Parsed(ready: Bytes -> Option<string>, lines: seq<Bytes>): (r: seq<Option<string>>) {
    seq(|lines|, i requires 0 <= i < |lines| => ready(lines[i]))
  }

  lemma ParsedFront(ready: Bytes -> Option<string>, line: Bytes, lines: seq<Bytes>)
    ensures Parsed(ready, [line] + lines) == [ready(line)] + Parsed(ready, lines)
  {
  }

  lemma LinesFront(b: Bytes, line: Bytes, rest: Bytes)
    requires RawLines(b) == [line] + RawLines(rest)
    ensures Lines(b) == [Chop(line)] + Lines(rest)
  {
    hide RawLines, Chop;
  }

  lemma NothingToCut(b: Bytes)
    requires NewlineAt(b) == |b|
    ensures Lines(b) == [] && Tail(b) == b
  {
  }

  lemma FeedFront(c: Settings, s: Supervisor, version: Option<string>, lines: seq<Option<string>>, e: Answers)
    ensures var first := HandleLine(c, s, version, e);
            Feed(c, s, [version] + lines, e) == Feed(c, first.s, lines, e).After(first.effects)
  {
    assert ([version] + lines)[1..] == lines;
  }

  // What handling a line comes to, case by case.
  lemma LineCases(c: Settings, s: Supervisor, version: Option<string>, e: Answers)
    ensures var r := HandleLine(c, s, version, e);
            if !s.state.Starting? || version.None? || version.value == "" then r == Outcome(s, [])
            else
              var s1 := s.(timers := s.timers.(startup := false), model := version.value);
              if e.ready.Threw? then r == Fail(c, s1, e.dies).After([Ready(version.value, e.ready.reached)])
              else
                && r.s == s1.(state := Online, timers := s1.timers.(stable := true))
                && r.effects == [Ready(version.value, true)] + [Show(Online)]
  {
  }

  // A line can end the server only by failing the attempt.
  lemma LineOnlyFails(c: Settings, s: Supervisor, version: Option<string>, e: Answers)
    ensures var s' := HandleLine(c, s, version, e).s;
            && (s'.running ==> s.running) && (s.handled ==> s'.handled)
            && (s.running && !s'.running ==> !s'.state.Starting?)
  {
  }

  lemma InertAfterDeath(c: Settings, s: Supervisor, lines: seq<Option<string>>, e: Answers)
    ensures !s.state.Starting? ==> Feed(c, s, lines, e) == Outcome(s, [])
  {
    if !s.state.Starting? {
      FeedInert(c, s, lines, e);
    }
  }

  lemma {:induction false} FeedOnlyKills(c: Settings, s: Supervisor, lines: seq<Option<string>>, e: Answers)
    ensures Feed(c, s, lines, e).s.running ==> s.running
    decreases |lines|
  {
    if lines != [] {
      LineOnlyFails(c, s, lines[0], e);
      FeedOnlyKills(c, HandleLine(c, s, lines[0], e).s, lines[1..], e);
    }
  }

  class AiProcessSupervisor {
    const settings: Settings
    // The model version a ready line announces; parsing it is not modelled.
    const ready: Bytes -> Option<string>
    var state: AiState
    var startupTimer: bool
    var restartTimer: bool
    var stableTimer: bool
    var restartAttempts: nat
    var restartCount: nat
    var failureHandled: bool
    var stopRequested: bool
    var modelVersion: string
    var processRunning: bool
    var stdoutBuffer: Bytes
    // Everything seen from outside so far.
    ghost var effects: seq<Effect>

    ghost function View(): (r: Supervisor)
      reads this
    {
      Supervisor(state, Timers(startupTimer, restartTimer, stableTimer), restartAttempts, restartCount,
                 failureHandled, stopRequested, modelVersion, processRunning)
    }

    ghost predicate Valid()
      reads this
    {
      Inv(settings, View())
    }

    // The new state and effects are those of an outcome.
    twostate predicate Becomes(r: Outcome)
      reads this
    {
      View() == r.s && effects == old(effects) + r.effects
    }

    constructor (settings: Settings, ready: Bytes -> Option<string>)
      ensures Valid() && View() == Initial() && effects == [] && stdoutBuffer == []
      ensures this.settings == settings && this.ready == ready
    {
      this.settings := settings;
      this.ready := ready;
      state := Disabled;
      startupTimer, restartTimer, stableTimer := false, false, false;
      restartAttempts, restartCount := 0, 0;
      failureHandled, stopRequested := false, false;
      modelVersion := "";
      processRunning := false;
      stdoutBuffer := [];
      effects := [];
    }

    method SetState(to: AiState)
      modifies this`state, this`effects
      ensures state == to && effects == old(effects) + [Show(to)]
    {
      state := to;
      effects := effects + [Show(to)];
    }

    method HandleFailure(e: Answers, last: Bytes)
      modifies this
      ensures View() == Fail(settings, old(View()), e.dies).s
      ensures effects == old(effects) + Fail(settings, old(View()), e.dies).effects
      ensures stdoutBuffer == if old(processRunning) && !processRunning then [] else old(stdoutBuffer)
      decreases if failureHandled then 0 else 1, 1
    {
      hide Feed, Lines, Tail, RawLines, Parsed, NewlineAt, Delay;
      if stopRequested || state.Stopping? || failureHandled {
        return;
      }
      failureHandled := true;
      startupTimer := false;
      stableTimer := false;
      modelVersion := "";
      var canRestart := restartAttempts < settings.maxRestarts;
      if canRestart {
        SetState(RestartWait);
      } else {
        SetState(Offline);
      }
      StopProcess(e, last);
      assert stdoutBuffer == if old(processRunning) && !processRunning then [] else old(stdoutBuffer);
      if canRestart && !stopRequested {
        restartTimer := true;
        effects := effects + [Arm(Delay(restartAttempts))];
        Regroup(old(effects), [Show(RestartWait)], [Arm(Delay(restartAttempts))]);
      } else {
        Regroup(old(effects), [Show(Offline)], []);
      }
    }

    method HandleStdoutLine(line: Bytes, e: Answers, last: Bytes)
      modifies this
      ensures View() == HandleLine(settings, old(View()), ready(line), e).s
      ensures effects == old(effects) + HandleLine(settings, old(View()), ready(line), e).effects
      ensures stdoutBuffer == if old(processRunning) && !processRunning then [] else old(stdoutBuffer)
      decreases if failureHandled then 0 else 1, 2
    {
      hide HandleLine, Fail, Feed, Lines, Tail, RawLines, Parsed, NewlineAt;
      LineCases(settings, View(), ready(line), e);
      if state.Starting? {
        var version := ready(line);
        if version.Some? && version.value != "" {
          startupTimer := false;
          modelVersion := version.value;
          match e.ready {
            case Threw(reached) =>
              effects := effects + [Ready(modelVersion, reached)];
              ghost var failing := View();
              HandleFailure(e, last);
              Regroup(old(effects), [Ready(version.value, reached)], Fail(settings, failing, e.dies).effects);
              return;
            case Accepted =>
              effects := effects + [Ready(modelVersion, true)];
          }
          SetState(Online);
          stableTimer := true;
          Regroup(old(effects), [Ready(version.value, true)], [Show(Online)]);
        }
      }
    }

    lemma FeedNothing(c: Settings, s: Supervisor, e: Answers)
      ensures Feed(c, s, Parsed(ready, []), e) == Outcome(s, [])
    {
    }

    /** Hands on every line completed by the chunk, and keeps the unfinished rest. */
    method HandleStdout(chunk: Bytes, e: Answers, last: Bytes)
      modifies this
      ensures Becomes(Feed(settings, old(View()), Parsed(ready, Lines(old(stdoutBuffer) + chunk)), e))
      ensures stdoutBuffer == if old(processRunning) && !processRunning then [] else Tail(old(stdoutBuffer) + chunk)
      decreases if failureHandled then 0 else 1, 3
    {
      hide Feed, HandleLine, RawLines, Lines, Tail, Chop, Parsed, NewlineAt;
      stdoutBuffer := stdoutBuffer + chunk;
      ghost var all := stdoutBuffer;
      ghost var total := Feed(settings, old(View()), Parsed(ready, Lines(all)), e);
      while true
        invariant old(processRunning) || !processRunning
        invariant old(failureHandled) ==> failureHandled
        invariant var left := Feed(settings, View(), Parsed(ready, Lines(stdoutBuffer)), e);
                  left.s == total.s && effects + left.effects == old(effects) + total.effects
        invariant if old(processRunning) && !processRunning
                  then stdoutBuffer == [] else Tail(stdoutBuffer) == Tail(all)
        decreases |stdoutBuffer|
      {
        var newline := NewlineAt(stdoutBuffer);
        if newline == |stdoutBuffer| {
          NothingToCut(stdoutBuffer);
          FeedNothing(settings, View(), e);
          return;
        }
        var line := Chop(stdoutBuffer[..newline]);
        RawFront(stdoutBuffer);
        TailFront(stdoutBuffer);
        LinesFront(stdoutBuffer, stdoutBuffer[..newline], stdoutBuffer[newline + 1..]);
        stdoutBuffer := stdoutBuffer[newline + 1..];
        ParsedFront(ready, line, Lines(stdoutBuffer));
        LineOnlyFails(settings, View(), ready(line), e);
        ghost var first := HandleLine(settings, View(), ready(line), e);
        ghost var rest := Parsed(ready, Lines(stdoutBuffer));
        ghost var seen := effects;
        FeedFront(settings, View(), ready(line), rest, e);
        HandleStdoutLine(line, e, last);
        Regroup(seen, first.effects, Feed(settings, first.s, rest, e).effects);
        if stdoutBuffer == [] {
          NothingToCut([]);
          FeedNothing(settings, View(), e);
          InertAfterDeath(settings, first.s, rest, e);
        }
      }
    }

    // Ends the server if it is running; its exit is noticed at once, while waiting.
    method StopProcess(e: Answers, last: Bytes)
      requires !state.Starting?
      modifies this
      ensures processRunning == (old(processRunning) && !e.dies)
      ensures unchanged(`state, `startupTimer, `restartTimer, `stableTimer, `restartAttempts, `restartCount,
                        `failureHandled, `stopRequested, `modelVersion, `effects)
      ensures stdoutBuffer == if old(processRunning) && e.dies then [] else old(stdoutBuffer)
      decreases if failureHandled then 0 else 1, 4
    {
      hide Feed, Fail, HandleLine, Lines, Tail, RawLines, Parsed, NewlineAt;
      if !processRunning || !e.dies {
        return;
      }
      processRunning := false;
      FeedInert(settings, View(), Parsed(ready, Lines(stdoutBuffer + last)), e);
      HandleStdout(last, e, []);
      assert effects == old(effects) + [] == old(effects);
      stdoutBuffer := [];
    }

    method StartAttempt(e: Answers, last: Bytes)
      modifies this
      ensures View() == Attempt(settings, old(View()), e).s
      ensures effects == old(effects) + Attempt(settings, old(View()), e).effects
      ensures stdoutBuffer == if old(stopRequested) then old(stdoutBuffer) else []
    {
      hide Fail;
      if stopRequested {
        return;
      }
      failureHandled := false;
      stdoutBuffer := [];
      modelVersion := "";
      SetState(Starting);
      if !e.pathsOk {
        HandleFailure(e, last);
        return;
      }
      if !e.socketGone {
        HandleFailure(e, last);
        return;
      }
      startupTimer := true;
      processRunning := true;
      effects := effects + [Launch];
    }

    // ---- events ----

    method Start(e: Answers, last: Bytes)
      requires Valid()
      modifies this
      ensures Valid() && Becomes(Step(settings, old(View()), Event.Start, e))
    {
      hide Inv, Attempt;
      StepKeepsInv(settings, View(), Event.Start, e);
      if stopRequested || state.Starting? || state.Online? || state.RestartWait? {
        return;
      }
      if !settings.enabled {
        SetState(Disabled);
        return;
      }
      restartAttempts := 0;
      StartAttempt(e, last);
    }

    method OnStartupTimeout(e: Answers, last: Bytes)
      requires Valid() && startupTimer
      modifies this
      ensures Valid() && Becomes(Step(settings, old(View()), StartupTimeout, e))
    {
      hide Inv, Fail;
      StepKeepsInv(settings, View(), StartupTimeout, e);
      startupTimer := false;
      HandleFailure(e, last);
    }

    method OnRestartTimeout(e: Answers, last: Bytes)
      requires Valid() && restartTimer
      modifies this
      ensures Valid() && Becomes(Step(settings, old(View()), RestartTimeout, e))
    {
      hide Inv, Attempt;
      StepKeepsInv(settings, View(), RestartTimeout, e);
      restartTimer := false;
      restartAttempts := restartAttempts + 1;
      restartCount := restartCount + 1;
      StartAttempt(e, last);
    }

    method OnStableTimeout(e: Answers)
      requires Valid() && stableTimer
      modifies this
      ensures Valid() && Becomes(Step(settings, old(View()), StableTimeout, e))
    {
      hide Inv;
      StepKeepsInv(settings, View(), StableTimeout, e);
      stableTimer := false;
      restartAttempts := 0;
      assert effects == old(effects) + [];
    }

    method OnOutput(chunk: Bytes, e: Answers, last: Bytes)
      requires Valid() && processRunning
      modifies this
      ensures Valid()
      ensures Becomes(Step(settings, old(View()), Output(Parsed(ready, Lines(old(stdoutBuffer) + chunk))), e))
      ensures stdoutBuffer == if old(processRunning) && !processRunning then [] else Tail(old(stdoutBuffer) + chunk)
    {
      hide Inv, Feed, Lines, Tail, Parsed;
      StepKeepsInv(settings, View(), Output(Parsed(ready, Lines(stdoutBuffer + chunk))), e);
      HandleStdout(chunk, e, last);
    }

    method OnError(dead: bool, e: Answers, last: Bytes)
      requires Valid() && processRunning
      modifies this
      ensures Valid() && Becomes(Step(settings, old(View()), ProcessError(dead), e))
    {
      hide Inv, Fail;
      StepKeepsInv(settings, View(), ProcessError(dead), e);
      processRunning := !dead;
      HandleFailure(e, last);
    }

    lemma EndRunsNothing(c: Settings, s: Supervisor, lines: seq<Option<string>>, e: Answers)
      ensures !Feed(c, s.(running := false), lines, e).s.running
      ensures !End(c, s, lines, e).s.running
    {
      FeedOnlyKills(c, s.(running := false), lines, e);
    }

    method OnFinished(chunk: Bytes, e: Answers)
      requires Valid() && processRunning
      modifies this
      ensures Valid()
      ensures Becomes(Step(settings, old(View()), Finished(Parsed(ready, Lines(old(stdoutBuffer) + chunk))), e))
      ensures stdoutBuffer == [] && !processRunning
    {
      hide Inv, Fail, Feed, Lines, Tail, Parsed;
      ghost var lines := Parsed(ready, Lines(stdoutBuffer + chunk));
      StepKeepsInv(settings, View(), Finished(lines), e);
      EndRunsNothing(settings, View(), lines, e);
      processRunning := false;
      HandleStdout(chunk, e, []);
      stdoutBuffer := [];
      if !state.Stopping? {
        ghost var fed := Feed(settings, old(View()).(running := false), lines, e);
        HandleFailure(e, []);
        Regroup(old(effects), fed.effects, Fail(settings, fed.s, e.dies).effects);
      }
    }

    method ReportTransportFailure(e: Answers, last: Bytes)
      requires Valid()
      modifies this
      ensures Valid() && Becomes(Step(settings, old(View()), ReportFailure, e))
    {
      hide Inv, Fail;
      StepKeepsInv(settings, View(), ReportFailure, e);
      if state.Online? {
        HandleFailure(e, last);
      }
    }

    method Stop(e: Answers, last: Bytes)
      requires Valid()
      modifies this
      ensures Valid() && Becomes(Step(settings, old(View()), Event.Stop, e))
      ensures stopRequested
    {
      hide Inv, Feed, Fail, Lines, Tail;
      StepKeepsInv(settings, View(), Event.Stop, e);
      if stopRequested {
        assert effects == old(effects) + [];
        return;
      }
      stopRequested := true;
      SetState(Stopping);
      startupTimer := false;
      restartTimer := false;
      stableTimer := false;
      StopProcess(e, last);
    }
  }
}
