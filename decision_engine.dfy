/**
 * `decide_shipment_delay`: the deterministic first-match rule chain the
 * work-item run route applies. The policy table it reads is not part of this
 * model, so its four thresholds are a parameter; the rendering of the order
 * value threshold inside the reason is the parameter `show`.
 */
module DecisionEngine {
  import opened Strings
  import opened Shipments

  /** The four entries of the policy table the rules consult. */
  datatype Policy = Policy(
    escalateIfPriority: bool,
    escalateIfOrderValueGte: real,
    maxDelayDaysAutoResolve: int,
    minInventoryDaysForAutoResolve: int)

  /** The `(decision, reason, confidence)` triple. */
  datatype RuleDecision = RuleDecision(decision: string, reason: string, confidence: real)

  const PRIORITY_RULE_REASON: string := "Priority shipment: requires human review"
  const MEETS_POLICY_REASON: string := "Meets auto-resolve policy thresholds"

  /** The condition of rule `k` (1 to 4), independently of the others. */
  predicate RuleHolds(e: ShipmentDelayEvent, p: Policy, k: nat) {
    match k
    case 1 => p.escalateIfPriority && e.priorityFlag
    case 2 => e.orderValue >= p.escalateIfOrderValueGte
    case 3 => e.delayDays > p.maxDelayDaysAutoResolve
    case 4 => e.inventoryDaysOfSupply < p.minInventoryDaysForAutoResolve
    case _ => false
  }

  /** The reason text of each rule. */
  function RuleReason(e: ShipmentDelayEvent, p: Policy, k: nat, show: real -> string): string {
    match k
    case 1 => PRIORITY_RULE_REASON
    case 2 => "High order value >= " + show(p.escalateIfOrderValueGte)
    case 3 => "Delay days " + IntText(e.delayDays) + " exceeds threshold"
    case 4 => "Inventory buffer " + IntText(e.inventoryDaysOfSupply) + " days below threshold"
    case _ => MEETS_POLICY_REASON
  }

  function DecideShipmentDelay(e: ShipmentDelayEvent, p: Policy, show: real -> string): (d: RuleDecision)
    ensures d.confidence == 1.0
    ensures d.decision == ESCALATE || d.decision == AUTO_RESOLVE
    ensures d.decision == AUTO_RESOLVE <==>
      && !(p.escalateIfPriority && e.priorityFlag)
      && e.orderValue < p.escalateIfOrderValueGte
      && e.delayDays <= p.maxDelayDaysAutoResolve
      && e.inventoryDaysOfSupply >= p.minInventoryDaysForAutoResolve
    ensures p.escalateIfPriority && e.priorityFlag ==>
      d == RuleDecision(ESCALATE, PRIORITY_RULE_REASON, 1.0)
    ensures d.decision == AUTO_RESOLVE ==> d.reason == MEETS_POLICY_REASON
  {
    if p.escalateIfPriority && e.priorityFlag then
      RuleDecision(ESCALATE, PRIORITY_RULE_REASON, 1.0)
    else if e.orderValue >= p.escalateIfOrderValueGte then
      RuleDecision(ESCALATE, "High order value >= " + show(p.escalateIfOrderValueGte), 1.0)
    else if e.delayDays > p.maxDelayDaysAutoResolve then
      RuleDecision(ESCALATE, "Delay days " + IntText(e.delayDays) + " exceeds threshold", 1.0)
    else if e.inventoryDaysOfSupply < p.minInventoryDaysForAutoResolve then
      RuleDecision(ESCALATE, "Inventory buffer " + IntText(e.inventoryDaysOfSupply) + " days below threshold", 1.0)
    else
      RuleDecision(AUTO_RESOLVE, MEETS_POLICY_REASON, 1.0)
  }

  /** First match: when rule `k` holds and no earlier rule does, the result
      escalates with rule `k`'s reason, whatever the later rules say. */
  lemma FirstMatch(e: ShipmentDelayEvent, p: Policy, show: real -> string, k: nat)
    requires 1 <= k <= 4 && RuleHolds(e, p, k)
    requires forall j :: 1 <= j < k ==> !RuleHolds(e, p, j)
    ensures DecideShipmentDelay(e, p, show) == RuleDecision(ESCALATE, RuleReason(e, p, k, show), 1.0)
  {
    if k > 1 { assert !RuleHolds(e, p, 1); }
    if k > 2 { assert !RuleHolds(e, p, 2); }
    if k > 3 { assert !RuleHolds(e, p, 3); }
  }

  /** If an event auto-resolves, a milder one (smaller order, shorter delay,
      more stock, no priority flag gained) auto-resolves too. */
  lemma AutoResolveDownwardClosed(e: ShipmentDelayEvent, e2: ShipmentDelayEvent, p: Policy, show: real -> string)
    requires NoMilderThan(e2, e)
    requires DecideShipmentDelay(e, p, show).decision == AUTO_RESOLVE
    ensures DecideShipmentDelay(e2, p, show).decision == AUTO_RESOLVE
  {
  }

  /** The reason alone tells the decision: only the auto-resolve sentence
      starts with 'M'; the escalation reasons start with 'P', 'H', 'D' or 'I'. */
  lemma ReasonDeterminesDecision(e: ShipmentDelayEvent, p: Policy, show: real -> string)
    ensures var d := DecideShipmentDelay(e, p, show);
      && |d.reason| > 0
      && (d.decision == AUTO_RESOLVE <==> d.reason[0] == 'M')
      && (d.decision == ESCALATE ==> d.reason[0] in {'P', 'H', 'D', 'I'})
  {
    var d := DecideShipmentDelay(e, p, show);
    if p.escalateIfPriority && e.priorityFlag {
      assert d.reason == PRIORITY_RULE_REASON;
    } else if e.orderValue >= p.escalateIfOrderValueGte {
      assert d.reason == "High order value >= " + show(p.escalateIfOrderValueGte);
    } else if e.delayDays > p.maxDelayDaysAutoResolve {
      assert d.reason == "Delay days " + IntText(e.delayDays) + " exceeds threshold";
    } else if e.inventoryDaysOfSupply < p.minInventoryDaysForAutoResolve {
      assert d.reason == "Inventory buffer " + IntText(e.inventoryDaysOfSupply) + " days below threshold";
    } else {
      assert d.reason == MEETS_POLICY_REASON;
    }
  }
}
