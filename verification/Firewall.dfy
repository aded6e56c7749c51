/** The firewall guard: a multi-command update of an external ruleset that must
    be safe at every point where a command fails or the process dies. */
module Firewall {
  import opened Common

  // A rule of INPUT, OUTPUT or the managed chain. A foreign rule may or may not
  // refer to a chain of the managed name.
  datatype Rule = ManagedJump | OwnerMarker | NfQueue(num: U16) | Foreign(id: nat, toChain: bool)

  datatype Builtin = Input | Output

  // The part of the kernel's tables the guard can meet; chain is the chain of
  // the managed name, otherRefs tells whether any further chain jumps to it.
  datatype Ruleset = Ruleset(input: seq<Rule>, output: seq<Rule>, chain: Option<seq<Rule>>, otherRefs: bool) {
    function Of(b: Builtin): (r: seq<Rule>) {
      if b.Input? then input else output
    }

    function With(b: Builtin, rules: seq<Rule>): (r: Ruleset) {
      if b.Input? then this.(input := rules) else this.(output := rules)
    }
  }

  datatype Command =
    | ListChain | CheckOwner | CheckJump(b: Builtin) | DeleteJump(b: Builtin) | FlushChain | DeleteChain
    | AppendOwner | NewChain | AppendQueue(num: U16) | InsertJump(b: Builtin)

  // Whether anything but the managed jumps refers to the chain.
  predicate ForeignRefs(r: Ruleset) {
    r.otherRefs || (exists x | x in r.input + r.output :: x.Foreign? && x.toChain)
  }

  predicate Referenced(r: Ruleset) {
    ForeignRefs(r) || ManagedJump in r.input || ManagedJump in r.output
  }

  // The rules that are not the guard's, in order.
  function Others(rules: seq<Rule>): (r: seq<Rule>) {
    if rules == [] then [] else (if rules[0].ManagedJump? then [] else [rules[0]]) + Others(rules[1..])
  }

  function DropFirstJump(rules: seq<Rule>): (r: seq<Rule>) {
    if rules == [] then [] else if rules[0].ManagedJump? then rules[1..] else [rules[0]] + DropFirstJump(rules[1..])
  }

  // What iptables does when nothing goes wrong: the new ruleset and the exit
  // status, 0 for success.
  function Exec(c: Command, r: Ruleset): (result: (Ruleset, int)) {
    match c
    case ListChain => (r, if r.chain.Some? then 0 else 1)
    case CheckOwner => (r, if r.chain.Some? && OwnerMarker in r.chain.value then 0 else 1)
    case CheckJump(b) => (r, if r.chain.None? then 2 else if ManagedJump in r.Of(b) then 0 else 1)
    case DeleteJump(b) =>
      if r.chain.Some? && ManagedJump in r.Of(b) then (r.With(b, DropFirstJump(r.Of(b))), 0) else (r, 1)
    case FlushChain => if r.chain.Some? then (r.(chain := Some([])), 0) else (r, 1)
    case DeleteChain => if r.chain == Some([]) && !Referenced(r) then (r.(chain := None), 0) else (r, 1)
    case AppendOwner => if r.chain.Some? then (r.(chain := Some(r.chain.value + [OwnerMarker])), 0) else (r, 1)
    case NewChain => if r.chain.None? then (r.(chain := Some([])), 0) else (r, 1)
    case AppendQueue(num) => if r.chain.Some? then (r.(chain := Some(r.chain.value + [NfQueue(num)])), 0) else (r, 1)
    case InsertJump(b) => if r.chain.Some? then (r.With(b, [ManagedJump] + r.Of(b)), 0) else (r, 2)
  }

  // The kernel never has a jump without its target.
  predicate Consistent(r: Ruleset) {
    r.chain.None? ==> !Referenced(r)
  }

  predicate Serves(chain: Option<seq<Rule>>) {
    chain.Some? && OwnerMarker in chain.value && exists x | x in chain.value :: x.NfQueue?
  }

  // Packets are only ever sent to a complete, owned chain.
  predicate CrashSafe(r: Ruleset) {
    ManagedJump in r.input || ManagedJump in r.output ==> Serves(r.chain)
  }

  // A state the guard may be interrupted in, if it started from origin.
  predicate Fine(r: Ruleset, origin: Ruleset) {
    && Consistent(r) && CrashSafe(r)
    && Others(r.input) == Others(origin.input) && Others(r.output) == Others(origin.output)
    && r.otherRefs == origin.otherRefs
  }

  // The ruleset without anything of the guard's.
  function Cleaned(r: Ruleset): (result: Ruleset) {
    Ruleset(Others(r.input), Others(r.output), None, r.otherRefs)
  }

  function Installed(r: Ruleset, num: U16): (result: Ruleset) {
    Ruleset([ManagedJump] + Others(r.input), [ManagedJump] + Others(r.output), Some([NfQueue(num), OwnerMarker]), r.otherRefs)
  }

  // Emptied and marked again, without a jump of the guard's.
  function Marked(r: Ruleset): (result: Ruleset) {
    Cleaned(r).(chain := Some([OwnerMarker]))
  }

  // What a failed install may leave: the guard still owns the chain; or nothing
  // of it is left; or an earlier process's chain, which this guard did not own,
  // could not be removed, and is as it was, emptied, or emptied and marked again.
  predicate LeftBehind(before: Ruleset, owned: bool, after: Ruleset, owns: bool) {
    || owns
    || after == Cleaned(before)
    || (&& !owned && before.chain.Some?
        && (after.chain == before.chain || after.chain == Some([]) || after.chain == Some([OwnerMarker])))
  }

  // What a new process can take over: no such chain, or one that carries the
  // owner marker and that nobody else uses.
  predicate Cleanable(r: Ruleset) {
    r.chain.None? || (OwnerMarker in r.chain.value && !ForeignRefs(r))
  }

  // A chain of the same name that somebody else made.
  predicate ForeignChain(r: Ruleset) {
    r.chain.Some? && OwnerMarker !in r.chain.value
  }

  lemma {:induction false} OthersMembers(rules: seq<Rule>)
    ensures ManagedJump !in Others(rules)
    ensures forall x | x != ManagedJump :: x in Others(rules) <==> x in rules
    ensures ManagedJump !in rules ==> Others(rules) == rules
  {
    if rules != [] {
      OthersMembers(rules[1..]);
    }
  }

  lemma {:induction false} DropFirstJumpKeepsOthers(rules: seq<Rule>)
    ensures Others(DropFirstJump(rules)) == Others(rules)
    ensures forall x | x in DropFirstJump(rules) :: x in rules
    ensures ManagedJump in rules ==> |DropFirstJump(rules)| < |rules|
  {
    if rules != [] {
      DropFirstJumpKeepsOthers(rules[1..]);
    }
  }

  lemma ForeignRefsCarryOver(r: Ruleset, origin: Ruleset)
    requires Others(r.input) == Others(origin.input) && Others(r.output) == Others(origin.output)
    requires r.otherRefs == origin.otherRefs
    ensures ForeignRefs(r) ==> ForeignRefs(origin)
  {
    hide Others;
    OthersMembers(r.input);
    OthersMembers(r.output);
    OthersMembers(origin.input);
    OthersMembers(origin.output);
    if x :| x in r.input + r.output && x.Foreign? && x.toChain {
      assert x in origin.input || x in origin.output;
      assert x in origin.input + origin.output;
    }
  }

  lemma SameForeignRefs(r: Ruleset, origin: Ruleset)
    requires Others(r.input) == Others(origin.input) && Others(r.output) == Others(origin.output)
    requires r.otherRefs == origin.otherRefs
    ensures ForeignRefs(r) <==> ForeignRefs(origin)
  {
    hide ForeignRefs, Others;
    ForeignRefsCarryOver(r, origin);
    ForeignRefsCarryOver(origin, r);
  }

  // When a command may be issued: what a mistimed one would break.
  predicate Timely(c: Command, r: Ruleset) {
    match c
    case FlushChain => ManagedJump !in r.input && ManagedJump !in r.output
    case InsertJump(b) => Serves(r.chain)
    case _ => true
  }

  lemma AppendServes(r: Ruleset, r': Ruleset)
    requires r.chain.Some? ==> exists x :: r'.chain == Some(r.chain.value + [x])
    requires r.chain.None? ==> r'.chain == r.chain
    ensures Serves(r.chain) ==> Serves(r'.chain)
  {
    if Serves(r.chain) {
      var q :| q in r.chain.value && q.NfQueue?;
      assert q in r'.chain.value;
    }
  }

  lemma ExecKeepsOthers(c: Command, r: Ruleset)
    ensures var r' := Exec(c, r).0;
            Others(r'.input) == Others(r.input) && Others(r'.output) == Others(r.output) && r'.otherRefs == r.otherRefs
  {
    match c {
      case DeleteJump(b) => DropFirstJumpKeepsOthers(r.Of(b));
      case InsertJump(b) => assert ([ManagedJump] + r.Of(b))[1..] == r.Of(b);
      case _ =>
    }
  }

  lemma ExecKeepsCrashSafe(c: Command, r: Ruleset)
    requires CrashSafe(r) && Timely(c, r)
    ensures CrashSafe(Exec(c, r).0)
  {
    hide Referenced;
    match c {
      case DeleteJump(b) => DropFirstJumpKeepsOthers(r.Of(b));
      case AppendOwner | AppendQueue(_) => AppendServes(r, Exec(c, r).0);
      case _ =>
    }
  }

  // A chain only goes when nothing refers to it, and no jump comes without it.
  lemma ExecKeepsConsistent(c: Command, r: Ruleset)
    requires Consistent(r)
    ensures Consistent(Exec(c, r).0)
  {
    hide Others, DropFirstJump, ForeignRefs;
    var r' := Exec(c, r).0;
    if r'.chain.None? {
      assert r' == r.(chain := None);
      SameForeignRefs(r, r');
    }
  }

  /** Every timely command keeps the tables consistent, every jump served, and
      everyone else's rules in place and in order. */
  lemma ExecKeepsFine(c: Command, r: Ruleset, origin: Ruleset)
    requires Fine(r, origin) && Timely(c, r)
    ensures Fine(Exec(c, r).0, origin)
  {
    hide Exec, Others, Consistent, CrashSafe, Timely;
    ExecKeepsOthers(c, r);
    ExecKeepsCrashSafe(c, r);
    ExecKeepsConsistent(c, r);
  }

  /** Issued at any other time, to a chain that is there, a command does break a safe
      state: being timely is exactly what keeps it. */
  lemma TimelyIff(c: Command, r: Ruleset)
    requires CrashSafe(r) && r.chain.Some?
    ensures CrashSafe(Exec(c, r).0) <==> Timely(c, r)
  {
    if Timely(c, r) {
      ExecKeepsCrashSafe(c, r);
    } else if c.InsertJump? {
      assert ([ManagedJump] + r.Of(c.b))[0] == ManagedJump;
    }
  }

  /** A flush while the chain is in use is such a command. */
  lemma MistimedFlush(input: seq<Rule>, num: U16)
    ensures var r := Ruleset([ManagedJump] + input, [], Some([NfQueue(num), OwnerMarker]), false);
            CrashSafe(r) && !CrashSafe(Exec(FlushChain, r).0)
  {
    assert [NfQueue(num), OwnerMarker][0].NfQueue?;
  }

  /** A new process may start from any state the old one was interrupted in. */
  lemma RestartIsFine(r: Ruleset, origin: Ruleset)
    requires Fine(r, origin)
    ensures Fine(r, r)
  {
  }

  /** The start-up promise that the next run always cleans up after a crash is
      false: interrupted between creating the chain and marking it, with or without
      its queue rule, or between flushing and deleting it, the guard leaves a chain
      it will not touch. */
  lemma CrashCanLoseTheMarker(origin: Ruleset, num: U16)
    requires Fine(origin, origin) && origin.chain.None?
    ensures var created := Exec(NewChain, origin).0;
            var queued := Exec(AppendQueue(num), created).0;
            Fine(created, origin) && !Cleanable(created) && Fine(queued, origin) && !Cleanable(queued)
    ensures var full := Installed(origin, num).(input := Others(origin.input), output := Others(origin.output));
            Fine(full, origin) && Cleanable(full) && !Cleanable(Exec(FlushChain, full).0)
  {
    OthersMembers(origin.input);
    OthersMembers(origin.output);
    assert [NfQueue(num), OwnerMarker][1] == OwnerMarker;
    var full := Installed(origin, num).(input := Others(origin.input), output := Others(origin.output));
    assert full == origin.(chain := full.chain);
    ExecKeepsFine(NewChain, origin, origin);
    ExecKeepsFine(AppendQueue(num), Exec(NewChain, origin).0, origin);
  }

  // A chain without its marker, as the guard leaves it between two commands.
  predicate MidWay(r: Ruleset, num: U16) {
    r.chain == Some([]) || r.chain == Some([NfQueue(num)])
  }

  // What the guard can have left: no chain, a marked one, or one mid-way.
  predicate Expected(r: Ruleset, num: U16) {
    r.chain.None? || OwnerMarker in r.chain.value || MidWay(r, num)
  }

  lemma ExecKeepsExpected(c: Command, r: Ruleset, num: U16)
    requires c.AppendQueue? ==> c.num == num && r.chain == Some([])
    ensures Expected(r, num) ==> Expected(Exec(c, r).0, num)
  {
    if c.AppendQueue? {
      assert [] + [NfQueue(num)] == [NfQueue(num)];
    }
  }

  /** From tables that can be cleaned, the next run can clean up whatever state it
      finds, except exactly a chain left mid-way. */
  lemma MidWayIff(r: Ruleset, before: Ruleset, origin: Ruleset, num: U16)
    requires Fine(r, origin) && Fine(before, origin) && Cleanable(before) && Expected(r, num)
    ensures !Cleanable(r) <==> MidWay(r, num)
  {
    hide Others;
    SameForeignRefs(r, before);
  }

  lemma AbsentIsClean(r: Ruleset, origin: Ruleset)
    requires Fine(r, origin)
    ensures r.chain.None? ==> r == Cleaned(r)
  {
    OthersMembers(r.input);
    OthersMembers(r.output);
  }

  // The external tool: every command either executes or, unless the tables are
  // reliable, fails with a status of its own and changes nothing.
  class Iptables {
    var rules: Ruleset
    const reliable: bool
    // The ruleset at the start, and after every command since.
    ghost const origin: Ruleset
    ghost var trace: seq<Ruleset>

    ghost predicate Valid()
      reads this
    {
      && Fine(rules, origin) && (forall r | r in trace :: Fine(r, origin))
      && rules == if trace == [] then origin else trace[|trace| - 1]
    }

    constructor (rules: Ruleset, reliable: bool)
      requires Fine(rules, rules)
      ensures Valid() && this.rules == origin == rules && trace == [] && this.reliable == reliable
    {
      this.rules, this.reliable := rules, reliable;
      origin, trace := rules, [];
    }

    method Run(c: Command) returns (status: int)
      requires Valid() && Timely(c, rules)
      modifies this
      ensures Valid() && trace == old(trace) + [rules]
      ensures || (rules, status) == Exec(c, old(rules))
              || (!reliable && status == -1 && rules == old(rules))
    {
      ExecKeepsFine(c, rules, origin);
      var failing: bool := *;
      if failing && !reliable {
        status := -1;
      } else {
        var (after, code) := Exec(c, rules);
        rules, status := after, code;
      }
      trace := trace + [rules];
    }
  }

  // Nothing was changed by any command since the trace was before.
  ghost predicate Untouched(before: seq<Ruleset>, after: seq<Ruleset>, r: Ruleset) {
    |before| <= |after| && after[..|before|] == before && forall i | |before| <= i < |after| :: after[i] == r
  }

  lemma QueuedServes(num: U16)
    ensures [] + [NfQueue(num)] + [OwnerMarker] == [NfQueue(num), OwnerMarker]
    ensures Serves(Some([NfQueue(num), OwnerMarker]))
  {
    var chain := [NfQueue(num), OwnerMarker];
    assert chain[0].NfQueue? && chain[1] == OwnerMarker;
  }

  lemma CleanedInput(r: Ruleset)
    ensures Cleaned(r.(input := [ManagedJump] + r.input)) == Cleaned(r)
  {
    assert ([ManagedJump] + r.input)[1..] == r.input;
  }

  lemma CleanedTwice(r: Ruleset)
    ensures Cleaned(Cleaned(r)) == Cleaned(r)
    ensures forall num :: Installed(Cleaned(r), num) == Installed(r, num)
  {
    OthersMembers(r.input);
    OthersMembers(r.output);
    OthersMembers(Others(r.input));
    OthersMembers(Others(r.output));
  }

  class FirewallQueueGuard {
    const queueNum: U16
    const tables: Iptables
    var installed: bool
    var ownsChain: bool

    // The tables as the guard found them, after so many commands.
    ghost const found: Ruleset
    ghost const since: nat

    // If it found what it could itself have left, there is never anything else.
    ghost predicate Safe()
      reads this, tables
    {
      && tables.Valid() && Fine(found, tables.origin) && since <= |tables.trace|
      && (Expected(found, queueNum) ==>
            && Expected(tables.rules, queueNum)
            && forall i | since <= i < |tables.trace| :: Expected(tables.trace[i], queueNum))
    }

    ghost predicate Valid()
      reads this, tables
    {
      Safe() && (installed ==> ownsChain)
    }

    constructor (queueNum: U16, tables: Iptables)
      requires tables.Valid()
      ensures Valid() && this.queueNum == queueNum && this.tables == tables && !installed && !ownsChain
      ensures found == tables.rules && since == |tables.trace|
    {
      this.queueNum, this.tables := queueNum, tables;
      installed, ownsChain := false, false;
      found, since := tables.rules, |tables.trace|;
    }

    method Issue(c: Command) returns (status: int)
      requires Safe() && Timely(c, tables.rules)
      requires c.AppendQueue? ==> c.num == queueNum && tables.rules.chain == Some([])
      modifies tables
      ensures Safe() && tables.trace == old(tables.trace) + [tables.rules]
      ensures || (tables.rules, status) == Exec(c, old(tables.rules))
              || (!tables.reliable && status == -1 && tables.rules == old(tables.rules))
    {
      hide Fine, Exec, Timely, Expected;
      ExecKeepsExpected(c, tables.rules, queueNum);
      status := tables.Run(c);
    }

    method RemoveManagedJumps(b: Builtin) returns (ok: bool)
      requires Safe() && tables.rules.chain.Some?
      modifies tables
      ensures Safe()
      ensures tables.rules == old(tables.rules).With(b, tables.rules.Of(b))
      ensures ok ==> tables.rules.Of(b) == Others(old(tables.rules).Of(b))
      ensures tables.reliable ==> ok
    {
      hide Fine, Expected;
      while true
        invariant Safe()
        invariant tables.rules == old(tables.rules).With(b, tables.rules.Of(b))
        invariant Others(tables.rules.Of(b)) == Others(old(tables.rules).Of(b))
        decreases |tables.rules.Of(b)|
      {
        var checkStatus := Issue(CheckJump(b));
        if checkStatus == 1 {
          OthersMembers(tables.rules.Of(b));
          return true;
        }
        if checkStatus != 0 {
          return false;
        }
        DropFirstJumpKeepsOthers(tables.rules.Of(b));
        var deleteStatus := Issue(DeleteJump(b));
        if deleteStatus != 0 {
          return false;
        }
      }
    }

    // Flushes and deletes a chain that no managed jump uses; if deleting fails,
    // marks the emptied chain again.
    method DropChain() returns (ok: bool)
      requires Safe() && tables.rules.chain.Some?
      requires ManagedJump !in tables.rules.input && ManagedJump !in tables.rules.output
      modifies tables
      ensures Safe()
      ensures ok ==> tables.rules == old(tables.rules).(chain := None)
      ensures !ok ==> tables.rules.chain in {old(tables.rules).chain, Some([]), Some([OwnerMarker])}
      ensures tables.reliable ==> (ok <==> !ForeignRefs(old(tables.rules)))
      ensures tables.reliable && !ok ==> tables.rules == old(tables.rules).(chain := Some([OwnerMarker]))
    {
      var flushStatus := Issue(FlushChain);
      if flushStatus != 0 {
        return false;
      }
      assert ForeignRefs(tables.rules) == ForeignRefs(old(tables.rules));
      var deleteStatus := Issue(DeleteChain);
      if deleteStatus == 0 {
        return true;
      }
      var remainingStatus := Issue(ListChain);
      if remainingStatus == 1 {
        return true;
      }
      if remainingStatus != 0 {
        return false;
      }
      assert [] + [OwnerMarker] == [OwnerMarker];
      var markStatus := Issue(AppendOwner);
      return false;
    }

    method RemoveChain(requireOwnerMarker: bool) returns (ok: bool)
      requires Safe()
      modifies tables
      ensures Safe()
      ensures ok ==> tables.rules == Cleaned(old(tables.rules))
      ensures old(tables.rules).chain.None? ==> tables.rules == old(tables.rules)
      ensures !ok ==> tables.rules.chain in {old(tables.rules).chain, Some([]), Some([OwnerMarker])}
      ensures requireOwnerMarker && ForeignChain(old(tables.rules)) ==>
                !ok && Untouched(old(tables.trace), tables.trace, old(tables.rules))
      ensures tables.reliable ==>
                (ok <==> || old(tables.rules).chain.None?
                         || (!ForeignRefs(old(tables.rules)) && (requireOwnerMarker ==> !ForeignChain(old(tables.rules)))))
      ensures tables.reliable && !ok && !(requireOwnerMarker && ForeignChain(old(tables.rules))) ==>
                tables.rules == Marked(old(tables.rules))
    {
      hide Fine, ForeignRefs, Others;
      ghost var before := tables.rules;
      OthersMembers(before.input);
      OthersMembers(before.output);
      OthersMembers(Others(before.input));
      OthersMembers(Others(before.output));
      AbsentIsClean(before, tables.origin);
      var chainStatus := Issue(ListChain);
      if chainStatus == 1 {
        return true;
      }
      if chainStatus != 0 {
        return false;
      }
      if requireOwnerMarker {
        var ownerStatus := Issue(CheckOwner);
        if ownerStatus != 0 {
          return false;
        }
      }
      var inputOk := RemoveManagedJumps(Input);
      if !inputOk {
        return false;
      }
      var outputOk := RemoveManagedJumps(Output);
      if !outputOk {
        return false;
      }
      SameForeignRefs(before, tables.rules);
      ok := DropChain();
    }

    method RemoveCurrentChain() returns (ok: bool)
      requires Safe()
      modifies this, tables
      ensures Safe()
      ensures ok ==> tables.rules == Cleaned(old(tables.rules)) && !ownsChain && !installed
      ensures !ok ==> ownsChain == old(ownsChain) && installed == old(installed)
      ensures tables.reliable ==> (ok <==> old(tables.rules).chain.None? || !ForeignRefs(old(tables.rules)))
      ensures tables.reliable && !ok ==> tables.rules == Marked(old(tables.rules))
    {
      ok := RemoveChain(false);
      if ok {
        ownsChain, installed := false, false;
      }
    }

    // Nothing of the guard's is left; or, if the rollback fails too, the chain
    // stays owned for a later attempt.
    method Rollback() returns (ok: bool)
      requires Valid() && !installed
      modifies this, tables
      ensures Valid() && !installed && !ok
      ensures ownsChain == old(ownsChain) || (!ownsChain && tables.rules == Cleaned(old(tables.rules)))
      ensures tables.reliable ==>
                (tables.rules == Cleaned(old(tables.rules)) && !ownsChain)
                || (tables.rules == Marked(old(tables.rules)) && ownsChain == old(ownsChain))
    {
      var undone := RemoveCurrentChain();
      ok := false;
    }

    // Sends both directions to the finished chain.
    method InsertJumps() returns (ok: bool)
      requires Valid() && !installed && ownsChain && Serves(tables.rules.chain)
      modifies this, tables
      ensures Valid() && ok == installed
      ensures ok ==> tables.rules == old(tables.rules).(input := [ManagedJump] + old(tables.rules).input,
                                                        output := [ManagedJump] + old(tables.rules).output)
      ensures !ok && !ownsChain ==> tables.rules == Cleaned(old(tables.rules))
      ensures tables.reliable ==> ok
    {
      CleanedInput(tables.rules);
      assert tables.rules.chain.Some?;
      hide Fine, Others, Serves;
      var inputStatus := Issue(InsertJump(Input));
      if inputStatus != 0 {
        ok := Rollback();
        return;
      }
      var outputStatus := Issue(InsertJump(Output));
      if outputStatus != 0 {
        ok := Rollback();
        return;
      }
      installed := true;
      return true;
    }

    // Builds the chain on cleaned tables, and takes it down again on a failure.
    method CreateChain() returns (ok: bool)
      requires Valid() && !installed && !ownsChain && tables.rules == Cleaned(tables.rules)
      modifies this, tables
      ensures Valid() && ok == installed
      ensures ok ==> tables.rules == Installed(old(tables.rules), queueNum)
      ensures !ok && !ownsChain ==> tables.rules == old(tables.rules)
      ensures tables.reliable ==> ok
    {
      hide Fine, Others;
      ghost var num := queueNum;
      QueuedServes(num);
      var newStatus := Issue(NewChain);
      if newStatus != 0 {
        return false;
      }
      ownsChain := true;
      var queueStatus := Issue(AppendQueue(queueNum));
      if queueStatus != 0 {
        ok := Rollback();
        return;
      }
      var ownerStatus := Issue(AppendOwner);
      if ownerStatus != 0 {
        ok := Rollback();
        return;
      }
      ok := InsertJumps();
    }

    method Install() returns (ok: bool)
      requires Valid()
      modifies this, tables
      ensures Valid() && ok == installed
      ensures old(installed) ==> ok && tables.rules == old(tables.rules)
      ensures ok && !old(installed) ==> tables.rules == Installed(old(tables.rules), queueNum)
      ensures !old(ownsChain) && ForeignChain(old(tables.rules)) ==>
                !ok && Untouched(old(tables.trace), tables.trace, old(tables.rules))
      ensures tables.reliable && !old(ownsChain) ==> (ok <==> Cleanable(old(tables.rules)))
      ensures tables.reliable && !old(installed) && old(ownsChain) ==>
                (ok <==> old(tables.rules).chain.None? || !ForeignRefs(old(tables.rules)))
      ensures !ok ==> LeftBehind(old(tables.rules), old(ownsChain), tables.rules, ownsChain)
    {
      if installed {
        return true;
      }
      ghost var before := tables.rules;
      AbsentIsClean(before, tables.origin);
      CleanedTwice(before);
      if ownsChain {
        var current := RemoveCurrentChain();
        if !current {
          return false;
        }
      }
      var owned := RemoveChain(true);
      if !owned {
        return false;
      }
      assert tables.rules == Cleaned(before);
      ok := CreateChain();
    }

    method Uninstall() returns (ok: bool)
      requires Valid()
      modifies this, tables
      ensures Valid()
      ensures !old(ownsChain) ==> ok && tables.rules == old(tables.rules)
      ensures ok && old(ownsChain) ==> tables.rules == Cleaned(old(tables.rules)) && !ownsChain && !installed
      ensures !ok ==> ownsChain && installed == old(installed)
      ensures tables.reliable ==>
                (ok <==> !old(ownsChain) || old(tables.rules).chain.None? || !ForeignRefs(old(tables.rules)))
      ensures tables.reliable && !ok ==> tables.rules == Marked(old(tables.rules))
    {
      if !ownsChain {
        return true;
      }
      ok := RemoveCurrentChain();
    }
  }

  /** After a crash in any state the guard may be interrupted in, what an install
      aims at is what it would have been without the crash. */
  lemma CrashIsForgotten(r: Ruleset, origin: Ruleset, num: U16)
    requires Fine(r, origin)
    ensures Cleaned(r) == Cleaned(origin) && Installed(r, num) == Installed(origin, num)
    ensures forall after | Fine(after, r) :: Fine(after, origin)
  {
  }

  /** After any calls on a guard that found tables it could clean, of all the states
      it passed through the next run can clean up every one but those mid-way. */
  lemma OnlyMidWayIsStuck(guard: FirewallQueueGuard, i: nat)
    requires guard.Valid() && Cleanable(guard.found) && guard.since <= i < |guard.tables.trace|
    ensures !Cleanable(guard.tables.trace[i]) <==> MidWay(guard.tables.trace[i], guard.queueNum)
  {
    hide Fine, ForeignRefs;
    assert guard.tables.trace[i] in guard.tables.trace;
    MidWayIff(guard.tables.trace[i], guard.found, guard.tables.origin, guard.queueNum);
  }

  /** The next run after a crash: from whatever state the old process was
      interrupted in, it ends with exactly the rules a first run would have set
      up, or reports a failure; and either way everything stays safe. */
  method NextRun(crashed: Ruleset, ghost origin: Ruleset, reliable: bool, queueNum: U16)
    returns (guard: FirewallQueueGuard, ok: bool)
    requires Fine(crashed, origin)
    ensures fresh(guard) && guard.Valid() && ok == guard.installed
    ensures ok ==> guard.tables.rules == Installed(origin, queueNum)
    ensures Fine(guard.tables.rules, origin) && forall r | r in guard.tables.trace :: Fine(r, origin)
    ensures reliable ==> (ok <==> Cleanable(crashed))
    ensures ForeignChain(crashed) ==> !ok && guard.tables.rules == crashed
    ensures Cleanable(crashed) ==> forall r | r in guard.tables.trace :: !Cleanable(r) <==> MidWay(r, queueNum)
  {
    CrashIsForgotten(crashed, origin, queueNum);
    RestartIsFine(crashed, origin);
    hide Fine, Others;
    var tables := new Iptables(crashed, reliable);
    guard := new FirewallQueueGuard(queueNum, tables);
    ok := guard.Install();
    if Cleanable(crashed) {
      forall r | r in guard.tables.trace ensures !Cleanable(r) <==> MidWay(r, queueNum) {
        var i :| 0 <= i < |guard.tables.trace| && guard.tables.trace[i] == r;
        OnlyMidWayIsStuck(guard, i);
      }
    }
  }
}
