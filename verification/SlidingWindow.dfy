/** Tumbling windows per source bound every sliding window: what the log of
    counted packets satisfies, and what follows for any interval. */
module SlidingWindow {
  import opened Common
  import opened FlowTable

  // A packet counted in a source window, whether it was let through, and the
  // start of the window it was counted in.
  datatype Counted = Counted(ip: Ip, at: Time, syn: bool, port: U16, start: Time, accepted: bool)

  // Accepted SYNs and accepted ports of one source in one tumbling window.
  function Syns(log: seq<Counted>, ip: Ip, start: Time): (r: nat) {
    if log == [] then 0
    else
      var c := log[|log| - 1];
      Syns(log[..|log| - 1], ip, start) + (if c.ip == ip && c.accepted && c.syn && c.start == start then 1 else 0)
  }

  ghost function Ports(log: seq<Counted>, ip: Ip, start: Time): (r: set<U16>) {
    set c | c in log && c.ip == ip && c.accepted && c.start == start :: c.port
  }

  // All counted SYNs and ports of that window, let through or not.
  function SynsCounted(log: seq<Counted>, ip: Ip, start: Time): (r: nat) {
    if log == [] then 0
    else
      var c := log[|log| - 1];
      SynsCounted(log[..|log| - 1], ip, start) + (if c.ip == ip && c.syn && c.start == start then 1 else 0)
  }

  ghost function PortsCounted(log: seq<Counted>, ip: Ip, start: Time): (r: set<U16>) {
    set c | c in log && c.ip == ip && c.start == start :: c.port
  }

  // The accepted ones over the half-open interval of one window length from a.
  function SynsIn(log: seq<Counted>, ip: Ip, a: Time, window: int): (r: nat) {
    if log == [] then 0
    else
      var c := log[|log| - 1];
      SynsIn(log[..|log| - 1], ip, a, window)
      + (if c.ip == ip && c.accepted && c.syn && a <= c.at < a + window then 1 else 0)
  }

  ghost function PortsIn(log: seq<Counted>, ip: Ip, a: Time, window: int): (r: set<U16>) {
    set c | c in log && c.ip == ip && c.accepted && a <= c.at < a + window :: c.port
  }

  predicate Apart(s: Time, t: Time, window: int) {
    s == t || s + window <= t || t + window <= s
  }

  // Each packet lies in its window, and windows of one source never overlap.
  ghost predicate Tumbling(log: seq<Counted>, window: int) {
    && (forall c | c in log :: c.start <= c.at < c.start + window)
    && (forall c, d | c in log && d in log && c.ip == d.ip :: Apart(c.start, d.start, window))
  }

  // No single window let the threshold through.
  ghost predicate Limited(log: seq<Counted>, synThreshold: nat, portThreshold: nat) {
    forall ip, start :: Syns(log, ip, start) < synThreshold && |Ports(log, ip, start)| < portThreshold
  }

  ghost predicate Falls(c: Counted, ip: Ip, a: Time, window: int) {
    c.ip == ip && a <= c.at < a + window
  }

  // An interval of one window length meets at most two windows of a source.
  lemma TwoWindows(log: seq<Counted>, window: int, ip: Ip, a: Time) returns (s: Time, t: Time)
    requires Tumbling(log, window)
    ensures forall c | c in log && Falls(c, ip, a, window) :: c.start == s || c.start == t
  {
    s, t := 0, 0;
    if c :| c in log && Falls(c, ip, a, window) {
      s := c.start;
      if d :| d in log && Falls(d, ip, a, window) && d.start != s {
        t := d.start;
        forall e | e in log && Falls(e, ip, a, window) ensures e.start == s || e.start == t {
          assert Apart(e.start, s, window) && Apart(e.start, t, window) && Apart(s, t, window);
        }
      }
    }
  }

  lemma {:induction false} SynsSplit(log: seq<Counted>, window: int, ip: Ip, a: Time, s: Time, t: Time)
    requires forall c | c in log && Falls(c, ip, a, window) :: c.start == s || c.start == t
    ensures SynsIn(log, ip, a, window) <= Syns(log, ip, s) + Syns(log, ip, t)
  {
    if log != [] {
      var n := |log| - 1;
      assert log[n] in log;
      SynsSplit(log[..n], window, ip, a, s, t);
    }
  }

  lemma SubsetBound<T>(a: set<T>, b: set<T>)
    requires a <= b
    ensures |a| <= |b|
  {
    if a != {} {
      var x :| x in a;
      SubsetBound(a - {x}, b - {x});
    }
  }

  /** In any interval of one window length at most 2 (threshold - 1) SYNs, and as
      many distinct ports, of one source are accepted. */
  lemma SlidingBound(log: seq<Counted>, window: int, synThreshold: nat, portThreshold: nat, ip: Ip, a: Time)
    requires Tumbling(log, window) && Limited(log, synThreshold, portThreshold)
    ensures SynsIn(log, ip, a, window) <= 2 * (synThreshold - 1)
    ensures |PortsIn(log, ip, a, window)| <= 2 * (portThreshold - 1)
  {
    var s, t := TwoWindows(log, window, ip, a);
    SynsSplit(log, window, ip, a, s, t);
    assert Syns(log, ip, s) < synThreshold && Syns(log, ip, t) < synThreshold;
    var both := Ports(log, ip, s) + Ports(log, ip, t);
    forall p | p in PortsIn(log, ip, a, window) ensures p in both {
      var c :| c in log && c.ip == ip && c.accepted && a <= c.at < a + window && c.port == p;
      assert Falls(c, ip, a, window);
    }
    SubsetBound(PortsIn(log, ip, a, window), both);
    assert |Ports(log, ip, s)| < portThreshold && |Ports(log, ip, t)| < portThreshold;
    assert |both| <= |Ports(log, ip, s)| + |Ports(log, ip, t)|;
  }

  // A live window holds exactly what was counted since it started.
  ghost predicate Exact(log: seq<Counted>, ip: Ip, stats: SourceStats) {
    && stats.synCount == SynsCounted(log, ip, stats.windowStart)
    && stats.ports == PortsCounted(log, ip, stats.windowStart)
  }

  // A logged packet's window is the live one of its source, or is over: before
  // the live one started, or by now when there is none.
  predicate ClosedOrCurrent(c: Counted, sources: map<Ip, SourceStats>, window: int, now: Time) {
    if c.ip in sources then c.start == sources[c.ip].windowStart || c.start + window <= sources[c.ip].windowStart
    else c.start + window <= now
  }

  // How the log relates to the live windows: the state's half of the argument.
  ghost predicate Windowed(log: seq<Counted>, sources: map<Ip, SourceStats>, window: int,
                           synThreshold: nat, portThreshold: nat, now: Time)
  {
    && Tumbling(log, window)
    && Limited(log, synThreshold, portThreshold)
    && (forall c | c in log :: c.at <= now && ClosedOrCurrent(c, sources, window, now))
    && (forall ip | ip in sources ::
          sources[ip].windowStart <= now && Exact(log, ip, sources[ip]))
  }

  lemma {:induction false} NoSyns(log: seq<Counted>, ip: Ip, start: Time)
    requires forall c | c in log :: !(c.ip == ip && c.start == start)
    ensures SynsCounted(log, ip, start) == 0 && PortsCounted(log, ip, start) == {}
  {
    if log != [] {
      var n := |log| - 1;
      assert log[n] in log;
      NoSyns(log[..n], ip, start);
    }
  }

  lemma LogAppend(log: seq<Counted>, c: Counted, ip: Ip, start: Time)
    ensures Syns(log + [c], ip, start) ==
            Syns(log, ip, start) + if c.ip == ip && c.accepted && c.syn && c.start == start then 1 else 0
    ensures Ports(log + [c], ip, start) ==
            Ports(log, ip, start) + if c.ip == ip && c.accepted && c.start == start then {c.port} else {}
  {
    assert (log + [c])[..|log|] == log;
  }

  lemma CountAppend(log: seq<Counted>, c: Counted, ip: Ip, start: Time)
    ensures SynsCounted(log + [c], ip, start) ==
            SynsCounted(log, ip, start) + if c.ip == ip && c.syn && c.start == start then 1 else 0
    ensures PortsCounted(log + [c], ip, start) ==
            PortsCounted(log, ip, start) + if c.ip == ip && c.start == start then {c.port} else {}
  {
    assert (log + [c])[..|log|] == log;
  }

  lemma {:induction false} AcceptedAreCounted(log: seq<Counted>, ip: Ip, start: Time)
    ensures Syns(log, ip, start) <= SynsCounted(log, ip, start)
    ensures Ports(log, ip, start) <= PortsCounted(log, ip, start)
  {
    if log != [] {
      AcceptedAreCounted(log[..|log| - 1], ip, start);
    }
  }

  // The two ways a window advances: it goes on, or it starts now from nothing.
  lemma WindowStep(sources: map<Ip, SourceStats>, lim: Limits, p: Packet, now: Time)
    requires lim.Window() > 0 && UpdateSource(sources, lim, p, now).1.Some?
    ensures var stats := UpdateSource(sources, lim, p, now).1.value;
            var ip := p.tuple.srcIp;
            var one := if Syn(p.tcpFlags) then 1 else 0;
            || (&& ip in sources && stats.windowStart == sources[ip].windowStart && now - stats.windowStart < lim.Window()
                && stats.synCount == sources[ip].synCount + one && stats.ports == sources[ip].ports + {p.tuple.dstPort})
            || (&& stats.windowStart == now && (ip in sources ==> sources[ip].windowStart + lim.Window() <= now)
                && stats.synCount == one && stats.ports == {p.tuple.dstPort})
  {
  }

  lemma CountedLimits(log: seq<Counted>, sources: map<Ip, SourceStats>, stats: SourceStats, window: int,
                      synThreshold: nat, portThreshold: nat, now: Time, c: Counted)
    requires Windowed(log, sources, window, synThreshold, portThreshold, now) && c.start == stats.windowStart <= now
    requires c.accepted ==> stats.synCount < synThreshold && |stats.ports| < portThreshold
    requires var one := if c.syn then 1 else 0;
             || (&& c.ip in sources && c.start == sources[c.ip].windowStart
                 && stats.synCount == sources[c.ip].synCount + one && stats.ports == sources[c.ip].ports + {c.port})
             || (&& (forall d | d in log && d.ip == c.ip :: d.start != c.start)
                 && stats.synCount == one && stats.ports == {c.port})
    ensures Limited(log + [c], synThreshold, portThreshold)
    ensures var sources' := sources[c.ip := stats];
            forall i | i in sources' :: sources'[i].windowStart <= now && Exact(log + [c], i, sources'[i])
  {
    hide Tumbling, Ports, Syns, SynsCounted, PortsCounted;
    if forall d | d in log && d.ip == c.ip :: d.start != c.start {
      NoSyns(log, c.ip, c.start);
    }
    CountAppend(log, c, c.ip, c.start);
    assert Exact(log + [c], c.ip, stats);
    AcceptedAreCounted(log + [c], c.ip, c.start);
    forall i, start ensures Syns(log + [c], i, start) < synThreshold && |Ports(log + [c], i, start)| < portThreshold {
      assert Syns(log, i, start) < synThreshold && |Ports(log, i, start)| < portThreshold;
      LogAppend(log, c, i, start);
      if i == c.ip && start == c.start && c.accepted {
        SubsetBound(Ports(log + [c], i, start), stats.ports);
      }
    }
    forall i | i in sources && i != c.ip ensures Exact(log + [c], i, sources[i]) {
      CountAppend(log, c, i, sources[i].windowStart);
    }
  }

  lemma CountedCurrent(log: seq<Counted>, sources: map<Ip, SourceStats>, sources': map<Ip, SourceStats>, window: int,
                       synThreshold: nat, portThreshold: nat, now: Time, c: Counted)
    requires window > 0 && Windowed(log, sources, window, synThreshold, portThreshold, now)
    requires c.ip in sources' && sources' == sources[c.ip := sources'[c.ip]] && c.at == now
    requires c.start == sources'[c.ip].windowStart
    requires || (c.ip in sources && c.start == sources[c.ip].windowStart && now - c.start < window)
             || (c.start == now && forall d | d in log && d.ip == c.ip :: d.start + window <= now)
    ensures Tumbling(log + [c], window)
    ensures forall d | d in log + [c] :: d.at <= now && ClosedOrCurrent(d, sources', window, now)
  {
    hide Limited, Exact;
    forall d | d in log ensures ClosedOrCurrent(d, sources', window, now) && (d.ip == c.ip ==> Apart(c.start, d.start, window)) {
      assert ClosedOrCurrent(d, sources, window, now);
    }
  }

  /** Counting one more packet keeps the log windowed, provided it is accepted
      only below both thresholds. */
  lemma CountKeepsWindowed(log: seq<Counted>, sources: map<Ip, SourceStats>, lim: Limits,
                           synThreshold: nat, portThreshold: nat, p: Packet, now: Time, accepted: bool)
    requires lim.Window() > 0
    requires Windowed(log, sources, lim.Window(), synThreshold, portThreshold, now)
    requires UpdateSource(sources, lim, p, now).1.Some?
    requires var stats := UpdateSource(sources, lim, p, now).1.value;
             accepted ==> stats.synCount < synThreshold && |stats.ports| < portThreshold
    ensures var (sources', stats) := UpdateSource(sources, lim, p, now);
            var c := Counted(p.tuple.srcIp, now, Syn(p.tcpFlags), p.tuple.dstPort, stats.value.windowStart, accepted);
            Windowed(log + [c], sources', lim.Window(), synThreshold, portThreshold, now)
  {
    var (sources', some) := UpdateSource(sources, lim, p, now);
    var stats := some.value;
    var ip, window := p.tuple.srcIp, lim.Window();
    var c := Counted(ip, now, Syn(p.tcpFlags), p.tuple.dstPort, stats.windowStart, accepted);
    assert sources' == sources[ip := stats];
    WindowStep(sources, lim, p, now);
    hide UpdateSource;
    if stats.windowStart == now {
      forall d | d in log && d.ip == ip && !(ip in sources && stats.windowStart == sources[ip].windowStart)
        ensures d.start + window <= now
      {
        assert ClosedOrCurrent(d, sources, window, now);
      }
    }
    CountedCurrent(log, sources, sources', window, synThreshold, portThreshold, now, c);
    CountedLimits(log, sources, stats, window, synThreshold, portThreshold, now, c);
    hide Limited, Tumbling, Exact;
  }

  // Time passing and the sweep of finished windows change nothing that matters.
  lemma SweepKeepsWindowed(log: seq<Counted>, t: Table, lim: Limits, synThreshold: nat, portThreshold: nat, now: Time)
    requires lim.Ok() && Windowed(log, t.sources, lim.Window(), synThreshold, portThreshold, now)
    ensures Windowed(log, Tick(t, lim, now).sources, lim.Window(), synThreshold, portThreshold, now)
  {
    hide Limited, Tumbling, Exact;
    var sources := Tick(t, lim, now).sources;
    forall c | c in log ensures ClosedOrCurrent(c, sources, lim.Window(), now) {
      assert ClosedOrCurrent(c, t.sources, lim.Window(), now);
      if c.ip in t.sources && c.ip !in sources {
        assert WindowOver(t.sources[c.ip], lim, now);
      }
    }
  }

  lemma TimeKeepsWindowed(log: seq<Counted>, sources: map<Ip, SourceStats>, window: int,
                          synThreshold: nat, portThreshold: nat, now: Time, later: Time)
    requires Windowed(log, sources, window, synThreshold, portThreshold, now) && now <= later
    ensures Windowed(log, sources, window, synThreshold, portThreshold, later)
  {
    hide Limited, Tumbling, Exact;
    forall c | c in log ensures ClosedOrCurrent(c, sources, window, later) {
      assert ClosedOrCurrent(c, sources, window, now);
    }
  }
}
