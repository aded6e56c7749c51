/** The detection rules over one source's window, checked in order. */
module Detection {
  import opened Common
  import opened FlowTable

  datatype Rule = PortScan(distinctPorts: nat) | SynFlood(syns: nat) {
    predicate IsMatch(stats: SourceStats) {
      match this
      case PortScan(n) => |stats.ports| >= n
      case SynFlood(n) => stats.synCount >= n
    }
  }

  class RuleEngine {
    var rules: seq<Rule>

    constructor ()
      ensures rules == []
    {
      rules := [];
    }

    method AddRule(rule: Rule)
      modifies this
      ensures rules == old(rules) + [rule]
    {
      rules := rules + [rule];
    }

    // The first rule that matches, in the order the rules were added.
    method Check(stats: SourceStats) returns (hit: Option<Rule>)
      ensures hit.None? <==> forall r | r in rules :: !r.IsMatch(stats)
      ensures hit.Some? ==> exists i | 0 <= i < |rules| ::
                              && hit.value == rules[i] && rules[i].IsMatch(stats)
                              && forall j | 0 <= j < i :: !rules[j].IsMatch(stats)
    {
      for i := 0 to |rules|
        invariant forall j | 0 <= j < i :: !rules[j].IsMatch(stats)
      {
        if rules[i].IsMatch(stats) {
          return Some(rules[i]);
        }
      }
      return None;
    }
  }
}
