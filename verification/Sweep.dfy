/** The incremental expiry sweep: each tick scans a run of hash buckets from a
    persistent cursor, wrapping around. */
module Sweep {

  function Quota(buckets: nat): (r: nat) {
    if buckets / 10 >= 64 then buckets / 10 else 64
  }

  // The i-th bucket scanned by a tick that starts at cursor.
  function Scanned(cursor: nat, i: nat, buckets: nat): (b: nat)
    requires buckets > 0
    ensures b < buckets
  {
    (cursor + i) % buckets
  }

  // A tick scans a quota of places, or all there are.
  predicate Scans(buckets: nat, i: nat) {
    i < Quota(buckets) && i < buckets
  }

  ghost predicate Visited(cursor: nat, buckets: nat, b: nat)
    requires buckets > 0
  {
    exists i: nat | Scans(buckets, i) :: Scanned(cursor, i, buckets) == b
  }

  function NextCursor(cursor: nat, buckets: nat): (r: nat)
    requires buckets > 0
  {
    (cursor + Quota(buckets)) % buckets
  }

  function CursorAfter(cursor: nat, buckets: nat, ticks: nat): (r: nat)
    requires buckets > 0
  {
    if ticks == 0 then cursor else NextCursor(CursorAfter(cursor, buckets, ticks - 1), buckets)
  }

  ghost predicate VisitedWithin(cursor: nat, buckets: nat, ticks: nat, b: nat)
    requires buckets > 0
  {
    exists t: nat | t < ticks :: Visited(CursorAfter(cursor, buckets, t), buckets, b)
  }

  lemma MulAtLeast(d: int, m: int)
    requires m >= 0
    ensures d >= 1 ==> d * m >= m
    ensures d >= 0 ==> d * m >= 0
    ensures d <= -1 ==> d * m <= -m
  {
  }

  lemma ModUnique(x: int, q: int, r: int, m: int)
    requires 0 <= r < m && x == q * m + r
    ensures x % m == r && x / m == q
  {
    var d := q - x / m;
    assert d * m == x % m - r;
    MulAtLeast(d, m);
  }

  lemma ModShift(x: int, i: int, m: int)
    requires m > 0
    ensures (x % m + i) % m == (x + i) % m
  {
    var r := (x % m + i) % m;
    var q := (x % m + i) / m;
    assert x + i == (x / m + q) * m + r;
    ModUnique(x + i, x / m + q, r, m);
  }

  lemma Quotients(d: nat, q: nat)
    requires q > 0
    ensures d == d / q * q + d % q && d % q <= d
  {
    MulAtLeast(d / q, q);
  }

  lemma TicksNeeded(d: nat, q: nat, t: nat)
    requires q > 0 && d < t * q
    ensures d / q < t
  {
    MulAtLeast(d / q - t, q);
    assert (d / q - t) * q == d / q * q - t * q;
  }

  lemma SameRemainder(x: int, y: int, m: int)
    requires m > 0 && x % m == y % m
    ensures x - y == (x / m - y / m) * m
  {
    assert x == x / m * m + x % m && y == y / m * m + y % m;
  }

  lemma DistanceUnique(cursor: nat, i: nat, j: nat, m: nat)
    requires i < m && j < m && (cursor + i) % m == (cursor + j) % m
    ensures i == j
  {
    var a, b := (cursor + i) / m, (cursor + j) / m;
    SameRemainder(cursor + i, cursor + j, m);
    MulAtLeast(a - b, m);
  }

  lemma {:induction false} CursorClosedForm(cursor: nat, buckets: nat, ticks: nat)
    requires 0 <= cursor < buckets
    ensures CursorAfter(cursor, buckets, ticks) == (cursor + ticks * Quota(buckets)) % buckets
  {
    if ticks == 0 {
      ModUnique(cursor, 0, cursor, buckets);
    } else {
      CursorClosedForm(cursor, buckets, ticks - 1);
      var q := Quota(buckets);
      assert ticks * q == (ticks - 1) * q + q;
      ModShift(cursor + (ticks - 1) * q, q, buckets);
    }
  }

  // Scanning the i-th bucket of tick t reaches cursor + t * quota + i.
  lemma ScannedPlace(cursor: nat, buckets: nat, t: nat, i: nat)
    requires cursor < buckets
    ensures Scanned(CursorAfter(cursor, buckets, t), i, buckets) == (cursor + (t * Quota(buckets) + i)) % buckets
  {
    CursorClosedForm(cursor, buckets, t);
    ModShift(cursor + t * Quota(buckets), i, buckets);
  }

  // The bucket d places after the starting cursor is scanned by tick d / Quota.
  lemma VisitedByTick(cursor: nat, buckets: nat, b: nat, d: nat)
    requires cursor < buckets && d < buckets && b == (cursor + d) % buckets
    ensures Visited(CursorAfter(cursor, buckets, d / Quota(buckets)), buckets, b)
  {
    var q := Quota(buckets);
    var t, i := d / q, d % q;
    Quotients(d, q);
    ScannedPlace(cursor, buckets, t, i);
    assert Scans(buckets, i);
  }

  lemma DistanceTo(cursor: nat, buckets: nat, b: nat) returns (d: nat)
    requires cursor < buckets && b < buckets
    ensures d < buckets && b == (cursor + d) % buckets
  {
    d := if b >= cursor then b - cursor else b + buckets - cursor;
    ModUnique(cursor + d, if b >= cursor then 0 else 1, b, buckets);
  }

  lemma CoveredByQuotas(cursor: nat, buckets: nat, ticks: nat, b: nat)
    requires cursor < buckets && b < buckets <= ticks * Quota(buckets)
    ensures VisitedWithin(cursor, buckets, ticks, b)
  {
    var d := DistanceTo(cursor, buckets, b);
    VisitedByTick(cursor, buckets, b, d);
    TicksNeeded(d, Quota(buckets), ticks);
  }

  /** Every bucket is scanned within any 11 consecutive ticks. */
  lemma ElevenTicksCover(cursor: nat, buckets: nat, b: nat)
    requires cursor < buckets && b < buckets
    ensures VisitedWithin(cursor, buckets, 11, b)
  {
    CoveredByQuotas(cursor, buckets, 11, b);
  }

  /** A tick scans no bucket twice. */
  lemma NoBucketTwice(cursor: nat, buckets: nat, i: nat, j: nat)
    requires buckets > 0 && i != j && Scans(buckets, i) && Scans(buckets, j)
    ensures Scanned(cursor, i, buckets) != Scanned(cursor, j, buckets)
  {
    if Scanned(cursor, i, buckets) == Scanned(cursor, j, buckets) {
      DistanceUnique(cursor, i, j, buckets);
    }
  }

  // With more buckets than ten quotas, the places from the tenth quota on are missed.
  lemma PlaceMissedIff(cursor: nat, buckets: nat, d: nat)
    requires cursor < buckets && d < buckets
    ensures VisitedWithin(cursor, buckets, 10, (cursor + d) % buckets) <==> d < 10 * Quota(buckets)
  {
    var q, b := Quota(buckets), (cursor + d) % buckets;
    if d < 10 * q {
      VisitedByTick(cursor, buckets, b, d);
      TicksNeeded(d, q, 10);
    } else {
      forall t: nat, i: nat | t < 10 && Scans(buckets, i)
        ensures Scanned(CursorAfter(cursor, buckets, t), i, buckets) != b
      {
        ScannedPlace(cursor, buckets, t, i);
        MulAtLeast(9 - t, q);
        MulAtLeast(t, q);
        assert (9 - t) * q == 9 * q - t * q;
        if (cursor + (t * q + i)) % buckets == b {
          DistanceUnique(cursor, t * q + i, d, buckets);
        }
      }
    }
  }

  /** Ten ticks, the "one tenth per tick" of the design, are enough exactly when
      ten quotas reach the bucket count. */
  lemma TenTicksCoverIff(cursor: nat, buckets: nat)
    requires cursor < buckets
    ensures (forall b: nat | b < buckets :: VisitedWithin(cursor, buckets, 10, b)) <==> buckets <= 10 * Quota(buckets)
  {
    if buckets <= 10 * Quota(buckets) {
      forall b: nat | b < buckets ensures VisitedWithin(cursor, buckets, 10, b) {
        CoveredByQuotas(cursor, buckets, 10, b);
      }
    } else {
      var d := buckets - 1;
      PlaceMissedIff(cursor, buckets, d);
      assert !VisitedWithin(cursor, buckets, 10, (cursor + d) % buckets);
    }
  }

  ghost function MissedByTen(cursor: nat, buckets: nat): (missed: set<nat>)
    requires buckets > 0
  {
    set b: nat | b < buckets && !VisitedWithin(cursor, buckets, 10, b)
  }

  // The buckets at places lo and on, counted from the cursor.
  ghost function PlacesFrom(cursor: nat, buckets: nat, lo: nat): (places: set<nat>)
    requires buckets > 0
  {
    set d: nat | lo <= d < buckets :: Scanned(cursor, d, buckets)
  }

  lemma PlaceUnique(cursor: nat, buckets: nat, d: nat, e: nat)
    requires d < buckets && e < buckets && Scanned(cursor, d, buckets) == Scanned(cursor, e, buckets)
    ensures d == e
  {
    DistanceUnique(cursor, d, e, buckets);
  }

  lemma {:induction false} PlacesCount(cursor: nat, buckets: nat, lo: nat)
    requires cursor < buckets && lo <= buckets
    ensures |PlacesFrom(cursor, buckets, lo)| == buckets - lo
    decreases buckets - lo
  {
    hide Scanned;
    if lo < buckets {
      var b := Scanned(cursor, lo, buckets);
      PlacesCount(cursor, buckets, lo + 1);
      var rest := PlacesFrom(cursor, buckets, lo + 1);
      if b in rest {
        var d: nat :| lo + 1 <= d < buckets && Scanned(cursor, d, buckets) == b;
        PlaceUnique(cursor, buckets, lo, d);
      }
      assert PlacesFrom(cursor, buckets, lo) == rest + {b};
    }
  }

  // A bucket is missed exactly when its place is beyond ten quotas.
  lemma MissedIffBeyond(cursor: nat, buckets: nat, b: nat)
    requires cursor < buckets && b < buckets
    ensures b in MissedByTen(cursor, buckets) <==> b in PlacesFrom(cursor, buckets, 10 * Quota(buckets))
  {
    hide VisitedWithin, Quota;
    var d := DistanceTo(cursor, buckets, b);
    PlaceMissedIff(cursor, buckets, d);
    assert Scanned(cursor, d, buckets) == b;
    hide Scanned;
    if b in PlacesFrom(cursor, buckets, 10 * Quota(buckets)) {
      var e: nat :| 10 * Quota(buckets) <= e < buckets && Scanned(cursor, e, buckets) == b;
      PlaceUnique(cursor, buckets, d, e);
    }
  }

  /** From any cursor ten ticks leave out exactly the buckets beyond ten quotas,
      which are never more than nine. */
  lemma TenTicksMiss(cursor: nat, buckets: nat)
    requires cursor < buckets
    ensures |MissedByTen(cursor, buckets)| == if buckets > 10 * Quota(buckets) then buckets - 10 * Quota(buckets) else 0
    ensures |MissedByTen(cursor, buckets)| <= 9
  {
    hide Scanned, VisitedWithin;
    var missed, places := MissedByTen(cursor, buckets), PlacesFrom(cursor, buckets, 10 * Quota(buckets));
    forall b: nat ensures b in missed <==> b in places {
      if b < buckets {
        MissedIffBeyond(cursor, buckets, b);
      }
    }
    assert missed == places;
    if 10 * Quota(buckets) <= buckets {
      PlacesCount(cursor, buckets, 10 * Quota(buckets));
    } else {
      assert places == {};
    }
  }

  // What libstdc++ reserves for the default cap of 100000 entries.
  const DEFAULT_BUCKETS := 107897

  /** With the default cap seven buckets wait for the eleventh tick. */
  lemma TenTicksMissSeven(cursor: nat)
    requires cursor < DEFAULT_BUCKETS
    ensures |MissedByTen(cursor, DEFAULT_BUCKETS)| == 7
  {
    TenTicksMiss(cursor, DEFAULT_BUCKETS);
  }
}
