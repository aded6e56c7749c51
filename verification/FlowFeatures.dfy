/** The feature vector of a flow, and what each feature says about the packets the
    flow stands for. */
module FlowFeatures {
  import opened Common
  import opened Statistics
  import opened FlowModel

  // The square root is a parameter: only its value at 0 matters here.
  function Deviated(r: RunningStats, root: real -> real): (result: real) {
    if r.Variance() > 0.0 then root(r.Variance()) else 0.0
  }

  // Lengths and times list the same four statistics in different orders.
  function Spread(r: RunningStats, root: real -> real): (result: seq<real>) {
    [r.max, r.min, r.Mean(), Deviated(r, root)]
  }

  function Timing(r: RunningStats, root: real -> real): (result: seq<real>) {
    [r.Mean(), Deviated(r, root), r.max, r.min]
  }

  function CountSum(a: nat, b: nat): (r: real) {
    a as real + b as real
  }

  function Features(f: Flow, root: real -> real): (r: seq<real>) {
    [Gap(f.firstSeen, f.lastSeen), f.forward.payloadLen.count as real, f.backward.payloadLen.count as real,
     f.forward.payloadLen.sum, f.backward.payloadLen.sum]
    + Spread(f.forward.payloadLen, root) + Spread(f.backward.payloadLen, root)
    + Timing(f.forward.iatUs, root) + Timing(f.backward.iatUs, root)
    + [CountSum(f.forward.fin, f.backward.fin), CountSum(f.forward.syn, f.backward.syn),
       CountSum(f.forward.rst, f.backward.rst), CountSum(f.forward.psh, f.backward.psh),
       CountSum(f.forward.ack, f.backward.ack), CountSum(f.forward.urg, f.backward.urg)]
  }

  // ---- the same from the packets, by textbook definitions ----

  function Total(xs: seq<real>): (r: real) {
    SumOf(Identity, xs)
  }

  function Average(xs: seq<real>): (r: real) {
    if xs == [] then 0.0 else Ratio(Total(xs), |xs| as real)
  }

  function Largest(xs: seq<real>): (r: real) {
    if xs == [] then 0.0
    else if |xs| == 1 || xs[|xs| - 1] > Largest(xs[..|xs| - 1]) then xs[|xs| - 1]
    else Largest(xs[..|xs| - 1])
  }

  function Smallest(xs: seq<real>): (r: real) {
    if xs == [] then 0.0
    else if |xs| == 1 || xs[|xs| - 1] < Smallest(xs[..|xs| - 1]) then xs[|xs| - 1]
    else Smallest(xs[..|xs| - 1])
  }

  // The root of the mean squared distance from the average, with n - 1 for n.
  function SampleDeviation(xs: seq<real>, root: real -> real): (r: real) {
    if |xs| < 2 then 0.0 else root(Ratio(SumOf(Deviation(Average(xs)), xs), |xs| as real - 1.0))
  }

  function SpreadOf(xs: seq<real>, root: real -> real): (r: seq<real>) {
    [Largest(xs), Smallest(xs), Average(xs), SampleDeviation(xs, root)]
  }

  function TimingOf(xs: seq<real>, root: real -> real): (r: seq<real>) {
    [Average(xs), SampleDeviation(xs, root), Largest(xs), Smallest(xs)]
  }

  function FromPackets(seen: seq<Seen>, root: real -> real): (r: seq<real>)
    requires seen != []
  {
    var fwd, bwd := OneWay(seen, true), OneWay(seen, false);
    [Gap(seen[0].at, seen[|seen| - 1].at), |fwd| as real, |bwd| as real,
     Total(PayloadLengths(fwd)), Total(PayloadLengths(bwd))]
    + SpreadOf(PayloadLengths(fwd), root) + SpreadOf(PayloadLengths(bwd), root)
    + TimingOf(Gaps(fwd), root) + TimingOf(Gaps(bwd), root)
    + [Flagged(seen, Fin) as real, Flagged(seen, Syn) as real, Flagged(seen, Rst) as real,
       Flagged(seen, Psh) as real, Flagged(seen, Ack) as real, Flagged(seen, Urg) as real]
  }

  lemma DeviationIsTextbook(xs: seq<real>, root: real -> real)
    requires root(0.0) == 0.0
    ensures Deviated(Fold(xs), root) == SampleDeviation(xs, root)
  {
    FoldMeaning(xs);
    if |xs| >= 2 {
      OnePassIsTwoPass(xs);
      hide Fold, Ratio, SumOf, RunningStats.RawVariance, RunningStats.Variance;
    }
  }

  lemma {:induction false} FoldExtremes(xs: seq<real>)
    ensures Fold(xs).max == Largest(xs) && Fold(xs).min == Smallest(xs)
  {
    if |xs| > 0 {
      var front := xs[..|xs| - 1];
      FoldExtremes(front);
      FoldMeaning(front);
    }
  }

  /** The accumulator gives the textbook values. */
  lemma FoldIsTextbook(xs: seq<real>, root: real -> real)
    requires root(0.0) == 0.0
    ensures var r := Fold(xs);
            && r.count == |xs| && r.sum == Total(xs)
            && Spread(r, root) == SpreadOf(xs, root) && Timing(r, root) == TimingOf(xs, root)
  {
    FoldMeaning(xs);
    FoldExtremes(xs);
    DeviationIsTextbook(xs, root);
    hide Fold, Ratio, SumOf, Largest, Smallest, Deviated, SampleDeviation;
  }

  lemma {:induction false} FlagsAddUp(seen: seq<Seen>, flag: Byte -> bool)
    ensures CountSum(Flagged(OneWay(seen, true), flag), Flagged(OneWay(seen, false), flag)) == Flagged(seen, flag) as real
  {
    if seen != [] {
      var front, last := seen[..|seen| - 1], seen[|seen| - 1];
      FlagsAddUp(front, flag);
      var way := OneWay(front, last.isForward);
      assert (way + [last])[..|way|] == way;
    }
  }

  /** Every feature of a live flow, computed packet by packet, is the textbook
      statistic of the packets seen since the flow was created. */
  lemma FeaturesAreTextbook(key: FiveTuple, track: Track, root: real -> real)
    requires track.seen != [] && root(0.0) == 0.0
    ensures Features(Record(key, track), root) == FromPackets(track.seen, root)
  {
    var fwd, bwd := OneWay(track.seen, true), OneWay(track.seen, false);
    FoldIsTextbook(PayloadLengths(fwd), root);
    FoldIsTextbook(PayloadLengths(bwd), root);
    FoldIsTextbook(Gaps(fwd), root);
    FoldIsTextbook(Gaps(bwd), root);
    FlagsAddUp(track.seen, Fin);
    FlagsAddUp(track.seen, Syn);
    FlagsAddUp(track.seen, Rst);
    FlagsAddUp(track.seen, Psh);
    FlagsAddUp(track.seen, Ack);
    FlagsAddUp(track.seen, Urg);
    hide Fold, Total, Spread, SpreadOf, Timing, TimingOf, CountSum, Flagged, OneWay, Gaps, HandshakeComplete;
  }

  // ---- gaps against durations ----

  predicate InOrder(seen: seq<Seen>) {
    forall i, j | 0 <= i <= j < |seen| :: seen[i].at <= seen[j].at
  }

  lemma {:induction false} OneWayInOrder(seen: seq<Seen>, isForward: bool)
    requires InOrder(seen)
    ensures var way := OneWay(seen, isForward);
            && InOrder(way)
            && (way != [] ==> seen != [] && seen[0].at <= way[0].at && way[|way| - 1].at <= seen[|seen| - 1].at)
  {
    if seen != [] {
      var front := seen[..|seen| - 1];
      OneWayInOrder(front, isForward);
    }
  }

  lemma MicrosBetween(a: int, b: int)
    requires a >= 0 && b >= 0
    ensures Micros(a) + Micros(b) <= Micros(a + b) <= Micros(a) + Micros(b) + 1
    ensures Micros(a) <= Micros(a + b)
  {
  }

  lemma TelescopeStep(total: real, a: int, b: int, k: nat)
    requires a >= 0 && b >= 0 && total <= Micros(a) as real <= total + k as real
    ensures total + Micros(b) as real <= Micros(a + b) as real <= total + Micros(b) as real + (k + 1) as real
  {
    MicrosBetween(a, b);
    hide Micros;
  }

  lemma GapsSum(way: seq<Seen>)
    requires |way| >= 2
    ensures var n := |way| - 1;
            Total(Gaps(way)) == (if n == 1 then 0.0 else Total(Gaps(way[..n]))) + Gap(way[n - 1].at, way[n].at)
  {
    hide Gap;
    var n, g := |way| - 1, Gaps(way);
    assert Total(g) == Total(g[..n - 1]) + g[n - 1];
    assert n > 1 ==> g[..n - 1] == Gaps(way[..n]);
  }

  /** The gaps of one direction, each cut to whole microseconds, add up to its span
      cut to whole microseconds, less at most one for each gap but the first. */
  lemma {:induction false} GapsTelescope(way: seq<Seen>)
    requires InOrder(way) && |way| >= 2
    ensures var span := Gap(way[0].at, way[|way| - 1].at);
            Total(Gaps(way)) <= span <= Total(Gaps(way)) + (|way| - 2) as real
  {
    hide Micros, Total, Gaps;
    var n := |way| - 1;
    GapsSum(way);
    if |way| > 2 {
      GapsTelescope(way[..n]);
      TelescopeStep(Total(Gaps(way[..n])), way[n - 1].at - way[0].at, way[n].at - way[n - 1].at, n - 2);
    }
  }

  lemma NoGaps(way: seq<Seen>)
    requires |way| < 2
    ensures Total(Gaps(way)) == 0.0 && Micros(0) == 0
  {
  }

  lemma SpanWithinDuration(seen: seq<Seen>, way: seq<Seen>)
    requires seen != [] && InOrder(seen) && InOrder(way)
    requires way != [] ==> seen[0].at <= way[0].at && way[|way| - 1].at <= seen[|seen| - 1].at
    ensures Total(Gaps(way)) <= Gap(seen[0].at, seen[|seen| - 1].at)
  {
    hide Micros, Total, Gaps;
    var duration := seen[|seen| - 1].at - seen[0].at;
    if |way| >= 2 {
      var span := way[|way| - 1].at - way[0].at;
      GapsTelescope(way);
      MicrosBetween(span, duration - span);
    } else {
      NoGaps(way);
      MicrosBetween(0, duration);
    }
  }

  lemma {:induction false} SumIsNonNegative(xs: seq<real>)
    requires forall i | 0 <= i < |xs| :: xs[i] >= 0.0
    ensures Total(xs) >= 0.0
  {
    if xs != [] {
      SumIsNonNegative(xs[..|xs| - 1]);
    }
  }

  lemma GapsAreNonNegative(way: seq<Seen>)
    requires InOrder(way)
    ensures forall i | 0 <= i < |Gaps(way)| :: Gaps(way)[i] >= 0.0
    ensures Total(Gaps(way)) >= 0.0
  {
    SumIsNonNegative(Gaps(way));
  }

  /** For a flow observed in order of time: a direction has one gap less than it has
      packets, and its gaps add up to no more than the flow's duration. */
  lemma GapsWithinDuration(key: FiveTuple, track: Track, isForward: bool)
    requires track.seen != [] && InOrder(track.seen)
    ensures var f := Record(key, track);
            var d := if isForward then f.forward else f.backward;
            && d.packetLen.count == d.payloadLen.count
            && d.iatUs.count == (if d.packetLen.count == 0 then 0 else d.packetLen.count - 1)
            && 0.0 <= d.iatUs.sum <= Gap(f.firstSeen, f.lastSeen)
  {
    var seen := track.seen;
    var way := OneWay(seen, isForward);
    OneWayInOrder(seen, isForward);
    FoldMeaning(TotalLengths(way));
    FoldMeaning(PayloadLengths(way));
    FoldMeaning(Gaps(way));
    GapsAreNonNegative(way);
    SpanWithinDuration(seen, way);
    hide Fold, Flagged, OneWay, HandshakeComplete, Gap;
  }
}
