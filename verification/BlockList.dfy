/** The block list: a map of expiry times with a min-heap of expiries that is
    cleaned up lazily, a bounded number of entries per tick. */
module Blocking {
  import opened Common

  const MAX_EXPIRY_CLEANUPS_PER_TICK := 16384

  datatype HeapEntry = HeapEntry(expiry: Time, ip: Ip)

  datatype Blocks = Blocks(until: map<Ip, Time>, heap: multiset<HeapEntry>)

  const NONE_BLOCKED := Blocks(map[], multiset{})

  predicate IsBlocked(b: Blocks, ip: Ip, now: Time) {
    ip in b.until && now < b.until[ip]
  }

  function Expiry(ttlSeconds: int, now: Time): (r: Time) {
    now + ttlSeconds * NS_PER_SECOND
  }

  function Block(b: Blocks, ip: Ip, ttlSeconds: int, now: Time): (r: Blocks) {
    var expiry := Expiry(ttlSeconds, now);
    Blocks(b.until[ip := expiry], b.heap + multiset{HeapEntry(expiry, ip)})
  }

  ghost predicate Popped(b: Blocks, b': Blocks, e: HeapEntry) {
    b'.heap[e] < b.heap[e]
  }

  // b' is b after n pops at now: earliest expiries first, only due ones, and an
  // address is released exactly when the entry of its current expiry is popped.
  ghost predicate Pops(b: Blocks, b': Blocks, now: Time, n: nat) {
    && b'.heap <= b.heap && |b.heap| == |b'.heap| + n
    && (forall e | Popped(b, b', e) :: e.expiry <= now)
    && (forall e, f | Popped(b, b', e) && f in b'.heap :: e.expiry <= f.expiry)
    && b'.until.Keys <= b.until.Keys
    && (forall ip | ip in b.until ::
          if Popped(b, b', HeapEntry(b.until[ip], ip)) then ip !in b'.until
          else ip in b'.until && b'.until[ip] == b.until[ip])
  }

  ghost predicate NothingDue(b: Blocks, now: Time) {
    forall e | e in b.heap :: now < e.expiry
  }

  // One cleanup tick: it stops at the cap or when nothing is due.
  ghost predicate Cleanup(b: Blocks, b': Blocks, now: Time) {
    || Pops(b, b', now, MAX_EXPIRY_CLEANUPS_PER_TICK)
    || (NothingDue(b', now) && exists n: nat | n <= MAX_EXPIRY_CLEANUPS_PER_TICK :: Pops(b, b', now, n))
  }

  // Every blocked address has its current expiry in the heap.
  ghost predicate Matched(b: Blocks) {
    forall ip | ip in b.until :: HeapEntry(b.until[ip], ip) in b.heap
  }

  lemma CleanupKeepsMatched(b: Blocks, b': Blocks, now: Time)
    requires Matched(b) && Cleanup(b, b', now)
    ensures Matched(b')
  {
    forall ip | ip in b'.until ensures HeapEntry(b'.until[ip], ip) in b'.heap {
      assert !Popped(b, b', HeapEntry(b.until[ip], ip));
    }
  }

  datatype Op = BlockOp(ip: Ip, ttlSeconds: int, now: Time) | CleanupOp(now: Time)

  ghost predicate Step(b: Blocks, op: Op, b': Blocks) {
    match op
    case BlockOp(ip, ttl, now) => b' == Block(b, ip, ttl, now)
    case CleanupOp(now) => Cleanup(b, b', now)
  }

  ghost predicate IsRun(states: seq<Blocks>, ops: seq<Op>) {
    && |states| == |ops| + 1 && states[0] == NONE_BLOCKED
    && (forall i | 0 <= i < |ops| :: Step(states[i], ops[i], states[i + 1]))
    && (forall i | 0 < i < |ops| :: ops[i - 1].now <= ops[i].now)
  }

  // The expiry set by the most recent block of ip.
  function LastExpiry(ops: seq<Op>, ip: Ip): (r: Option<Time>) {
    if ops == [] then None
    else
      var last := ops[|ops| - 1];
      if last.BlockOp? && last.ip == ip then Some(Expiry(last.ttlSeconds, last.now))
      else LastExpiry(ops[..|ops| - 1], ip)
  }

  ghost predicate Refines(b: Blocks, ops: seq<Op>) {
    && Matched(b)
    && (forall ip | ip in b.until :: LastExpiry(ops, ip) == Some(b.until[ip]))
    && (forall ip | LastExpiry(ops, ip).Some? && ip !in b.until ::
          ops != [] && LastExpiry(ops, ip).value <= ops[|ops| - 1].now)
  }

  lemma {:induction false} RunRefines(states: seq<Blocks>, ops: seq<Op>)
    requires IsRun(states, ops)
    ensures Refines(states[|ops|], ops)
  {
    if ops != [] {
      var n := |ops| - 1;
      RunRefines(states[..n + 1], ops[..n]);
      assert Step(states[n], ops[n], states[n + 1]);
      match ops[n]
      case BlockOp(ip, ttl, now) =>
      case CleanupOp(now) => CleanupKeepsMatched(states[n], states[n + 1], now);
    }
  }

  /** Wherever the cleanup ticks fall, an address is blocked exactly until the
      expiry of its most recent block. */
  lemma LastBlockWins(states: seq<Blocks>, ops: seq<Op>, ip: Ip, now: Time)
    requires IsRun(states, ops)
    requires ops != [] ==> ops[|ops| - 1].now <= now
    ensures IsBlocked(states[|ops|], ip, now) <==> LastExpiry(ops, ip).Some? && now < LastExpiry(ops, ip).value
    ensures Matched(states[|ops|])
  {
    RunRefines(states, ops);
  }

  // due is the part of the heap that is due at t.
  ghost predicate IsDuePart(heap: multiset<HeapEntry>, t: Time, due: multiset<HeapEntry>) {
    forall e :: due[e] == if e.expiry <= t then heap[e] else 0
  }

  // A cleanup that leaves a due entry has popped due entries only.
  lemma PoppedAreDue(b: Blocks, b': Blocks, now: Time, t: Time, due: multiset<HeapEntry>, f: HeapEntry)
    requires Pops(b, b', now, MAX_EXPIRY_CLEANUPS_PER_TICK) && IsDuePart(b.heap, t, due)
    requires f in b'.heap && f.expiry <= t
    ensures b.heap - b'.heap <= due
  {
    forall e ensures (b.heap - b'.heap)[e] <= due[e] {
      if e in b.heap - b'.heap {
        assert Popped(b, b', e);
      }
    }
  }

  lemma RemainderSize(heap: multiset<HeapEntry>, heap': multiset<HeapEntry>, due: multiset<HeapEntry>)
    requires heap' <= heap && heap - heap' <= due
    ensures |due - (heap - heap')| + (|heap| - |heap'|) == |due|
  {
    assert heap == heap' + (heap - heap');
    assert due == (due - (heap - heap')) + (heap - heap');
  }

  lemma CleanupDrains(b: Blocks, b': Blocks, now: Time, t: Time, due: multiset<HeapEntry>) returns (due': multiset<HeapEntry>)
    requires Cleanup(b, b', now) && t <= now && IsDuePart(b.heap, t, due)
    ensures IsDuePart(b'.heap, t, due')
    ensures |due'| == 0 || |due'| + MAX_EXPIRY_CLEANUPS_PER_TICK == |due|
  {
    var popped := b.heap - b'.heap;
    due' := due - popped;
    if due' != multiset{} {
      var f :| f in due';
      assert f in b'.heap;
      assert Pops(b, b', now, MAX_EXPIRY_CLEANUPS_PER_TICK);
      PoppedAreDue(b, b', now, t, due, f);
      RemainderSize(b.heap, b'.heap, due);
    }
  }

  /** A backlog of n due entries is drained within ceil(n / 16384) ticks when
      nothing new is blocked. */
  lemma {:induction false} BacklogDrains(states: seq<Blocks>, times: seq<Time>, t: Time, due: multiset<HeapEntry>)
    requires |states| == |times| + 1
    requires forall i | 0 <= i < |times| :: t <= times[i] && Cleanup(states[i], states[i + 1], times[i])
    requires IsDuePart(states[0].heap, t, due)
    requires |due| <= |times| * MAX_EXPIRY_CLEANUPS_PER_TICK
    ensures NothingDue(states[|times|], t)
  {
    if times == [] {
      assert due == multiset{};
    } else {
      var due' := CleanupDrains(states[0], states[1], times[0], t, due);
      BacklogDrains(states[1..], times[1..], t, due');
    }
  }

  // While no address is blocked again before its block expires, the unexpired
  // heap entries are exactly the unexpired map entries, once each.
  ghost predicate InStep(b: Blocks, now: Time) {
    && Matched(b)
    && forall e | e in b.heap && now < e.expiry :: b.heap[e] == 1 && e.ip in b.until && b.until[e.ip] == e.expiry
  }

  lemma BlockKeepsInStep(b: Blocks, ip: Ip, ttlSeconds: int, now: Time)
    requires InStep(b, now) && !IsBlocked(b, ip, now)
    ensures InStep(Block(b, ip, ttlSeconds, now), now)
  {
    var b' := Block(b, ip, ttlSeconds, now);
    var added := HeapEntry(Expiry(ttlSeconds, now), ip);
    forall e | e in b'.heap && now < e.expiry
      ensures b'.heap[e] == 1 && e.ip in b'.until && b'.until[e.ip] == e.expiry
    {
      if e in b.heap {
        assert e.ip != ip;
      } else {
        assert e == added;
      }
    }
  }

  lemma CleanupKeepsInStep(b: Blocks, b': Blocks, now: Time)
    requires InStep(b, now) && Cleanup(b, b', now)
    ensures InStep(b', now)
    ensures forall ip, t | t >= now :: IsBlocked(b', ip, t) <==> IsBlocked(b, ip, t)
  {
    CleanupKeepsMatched(b, b', now);
    forall e | e in b'.heap && now < e.expiry
      ensures b'.heap[e] == 1 && e.ip in b'.until && b'.until[e.ip] == e.expiry
    {
      assert !Popped(b, b', e);
    }
  }

  lemma Minimum(heap: multiset<HeapEntry>) returns (m: HeapEntry)
    requires heap != multiset{}
    ensures m in heap && forall e | e in heap :: m.expiry <= e.expiry
    decreases |heap|
  {
    var x :| x in heap;
    m := x;
    if heap - multiset{x} != multiset{} {
      var y := Minimum(heap - multiset{x});
      if y.expiry < x.expiry {
        m := y;
      }
      forall e | e in heap ensures m.expiry <= e.expiry {
        assert e == x || e in heap - multiset{x};
      }
    } else {
      forall e | e in heap ensures e == x {
        assert e in multiset{x} || e in heap - multiset{x};
      }
    }
  }

  // One more pop continues a sequence of pops.
  lemma PopsExtend(b: Blocks, mid: Blocks, now: Time, n: nat, top: HeapEntry, b': Blocks)
    requires Matched(b) && Pops(b, mid, now, n)
    requires top in mid.heap && top.expiry <= now && forall e | e in mid.heap :: top.expiry <= e.expiry
    requires b'.heap == mid.heap - multiset{top}
    requires b'.until == if top.ip in mid.until && mid.until[top.ip] == top.expiry then mid.until - {top.ip} else mid.until
    ensures Pops(b, b', now, n + 1)
  {
    forall e ensures Popped(b, b', e) <==> Popped(b, mid, e) || e == top {
    }
    forall ip | ip in b.until
      ensures if Popped(b, b', HeapEntry(b.until[ip], ip)) then ip !in b'.until
              else ip in b'.until && b'.until[ip] == b.until[ip]
    {
      assert Popped(b, mid, HeapEntry(b.until[ip], ip)) ==> ip !in mid.until;
    }
  }

  class BlockList {
    var blockMap: map<Ip, Time>
    // A priority queue by its contract: push, and pop of a least expiry.
    var expiryHeap: multiset<HeapEntry>

    ghost function View(): (r: Blocks)
      reads this
    {
      Blocks(blockMap, expiryHeap)
    }

    ghost predicate Valid()
      reads this
    {
      Matched(View())
    }

    constructor ()
      ensures Valid() && View() == NONE_BLOCKED
    {
      blockMap, expiryHeap := map[], multiset{};
    }

    method Add(ip: Ip, ttlSeconds: int, now: Time)
      requires Valid()
      modifies this
      ensures Valid() && View() == Block(old(View()), ip, ttlSeconds, now)
    {
      var expiry := now + ttlSeconds * NS_PER_SECOND;
      blockMap := blockMap[ip := expiry];
      expiryHeap := expiryHeap + multiset{HeapEntry(expiry, ip)};
    }

    method Contains(ip: Ip, now: Time) returns (blocked: bool)
      ensures blocked == IsBlocked(View(), ip, now)
    {
      if ip !in blockMap {
        return false;
      }
      return now < blockMap[ip];
    }

    method Top() returns (top: HeapEntry)
      requires expiryHeap != multiset{}
      ensures top in expiryHeap && forall e | e in expiryHeap :: top.expiry <= e.expiry
    {
      ghost var m := Minimum(expiryHeap);
      top :| top in expiryHeap && forall e | e in expiryHeap :: top.expiry <= e.expiry;
    }

    method CleanupExpired(now: Time)
      requires Valid()
      modifies this
      ensures Valid() && Cleanup(old(View()), View(), now)
    {
      var i := 0;
      while i < MAX_EXPIRY_CLEANUPS_PER_TICK && expiryHeap != multiset{}
        invariant 0 <= i <= MAX_EXPIRY_CLEANUPS_PER_TICK
        invariant Pops(old(View()), View(), now, i)
      {
        var entry := Top();
        if entry.expiry > now {
          break;
        }
        ghost var mid := View();
        expiryHeap := expiryHeap - multiset{entry};
        if entry.ip in blockMap && blockMap[entry.ip] == entry.expiry {
          blockMap := blockMap - {entry.ip};
        }
        PopsExtend(old(View()), mid, now, i, entry, View());
        i := i + 1;
      }
      assert Cleanup(old(View()), View(), now);
      CleanupKeepsMatched(old(View()), View(), now);
    }
  }
}
