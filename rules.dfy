/** Override rules as a declarative table: a rule fires when every one of its
    thresholds is strictly exceeded by the named field of the input vector,
    and a firing rule raises the risk to its floor. */
module OverrideRules {
  import Scoring

  /** "field at index `field` is strictly greater than `bound`". */
  datatype Threshold = Threshold(field: nat, bound: real)

  /** A conjunction of thresholds and the floor it enforces. */
  datatype Rule = Rule(when: seq<Threshold>, floor: real)

  /** Every threshold of every rule reads a field the vector has. */
  predicate ReadsWithin(rules: seq<Rule>, arity: nat) {
    forall i, j :: 0 <= i < |rules| && 0 <= j < |rules[i].when| ==> rules[i].when[j].field < arity
  }

  /** Every floor is itself a percentage. */
  predicate FloorsInRange(rules: seq<Rule>) {
    forall i :: 0 <= i < |rules| ==> 0.0 <= rules[i].floor <= 100.0
  }

  /** All thresholds exceeded. */
  function AllExceeded(ts: seq<Threshold>, v: seq<real>): (b: bool)
    requires forall j :: 0 <= j < |ts| ==> ts[j].field < |v|
    ensures b <==> forall j :: 0 <= j < |ts| ==> v[ts[j].field] > ts[j].bound
    decreases |ts|
  {
    if ts == [] then true
    else v[ts[0].field] > ts[0].bound && AllExceeded(ts[1..], v)
  }

  /** Whether a rule's trigger holds on the input vector. */
  predicate Fires(rule: Rule, v: seq<real>)
    requires forall j :: 0 <= j < |rule.when| ==> rule.when[j].field < |v|
  {
    AllExceeded(rule.when, v)
  }

  /** Applies the rules of a table in order. The result is never below the
      model's risk, is at least the floor of every firing rule, and is either
      the model's risk or one firing rule's floor: floors are not added up. */
  function ApplyRules(rules: seq<Rule>, v: seq<real>, risk: real): (r: real)
    requires ReadsWithin(rules, |v|)
    ensures r >= risk
    ensures forall i :: 0 <= i < |rules| && Fires(rules[i], v) ==> r >= rules[i].floor
    ensures (forall i :: 0 <= i < |rules| ==> !Fires(rules[i], v)) ==> r == risk
    ensures r == risk || exists i :: 0 <= i < |rules| && Fires(rules[i], v) && r == rules[i].floor
    decreases |rules|
  {
    if rules == [] then risk
    else
      var rest := rules[1..];
      assert forall i :: 0 <= i < |rest| ==> rest[i] == rules[i + 1];
      var raised := Scoring.RaiseToFloor(risk, Fires(rules[0], v), rules[0].floor);
      ApplyRules(rest, v, raised)
  }

  /** With floors that are percentages, a risk that is a percentage stays one. */
  lemma ApplyRulesInRange(rules: seq<Rule>, v: seq<real>, risk: real)
    requires ReadsWithin(rules, |v|)
    requires FloorsInRange(rules)
    requires 0.0 <= risk <= 100.0
    ensures 0.0 <= ApplyRules(rules, v, risk) <= 100.0
  {
  }

  /** A higher model risk never gives a lower final risk. */
  lemma ApplyRulesMonotone(rules: seq<Rule>, v: seq<real>, r1: real, r2: real)
    requires ReadsWithin(rules, |v|)
    requires r1 <= r2
    ensures ApplyRules(rules, v, r1) <= ApplyRules(rules, v, r2)
  {
  }
}
