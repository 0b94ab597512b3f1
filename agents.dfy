/**
 * The three deterministic threshold agents. Each reads a shipment-delay event
 * and returns a score in [0, 1], a recommendation and a human-readable reason.
 *
 * Python renders the order value with `str(float)`; that rendering is not
 * modelled and is passed in as `show`.
 */
module Agents {
  import opened Strings
  import opened Shipments

  /** `AgentResult`: the verdict of one agent. */
  datatype AgentResult = AgentResult(name: string, score: real, recommendation: string, reason: string)

  const RISK_AGENT: string := "RiskAgent"
  const COST_AGENT: string := "CostAgent"
  const SLA_AGENT: string := "SlaAgent"

  const LOW_RISK_REASON: string := "Low operational risk"
  const PRIORITY_KEY: string := "priority_flag=true"

  /** What every agent promises: its own name, a score in [0, 1] and one of the
      two recommendations. */
  predicate WellFormed(r: AgentResult, name: string) {
    && r.name == name
    && 0.0 <= r.score <= 1.0
    && (r.recommendation == ESCALATE || r.recommendation == AUTO_RESOLVE)
  }

  function Min(a: real, b: real): real {
    if a <= b then a else b
  }

  /** The reasons the risk heuristics fire, the delay reason first. */
  function RiskReasons(e: ShipmentDelayEvent): seq<string> {
    (if e.delayDays >= 3 then ["delay_days=" + IntText(e.delayDays) + " (high)"]
     else if e.delayDays == 2 then ["delay_days=" + IntText(e.delayDays) + " (moderate)"]
     else [])
    + (if e.inventoryDaysOfSupply < 7 then ["inventory_days=" + IntText(e.inventoryDaysOfSupply) + " (low)"] else [])
  }

  /** `RiskAgent.evaluate`: a long delay weighs 0.5, a two-day delay 0.25 and a
      stock of under a week 0.6, capped at 1; it escalates from 0.6 on. */
  function RiskEvaluate(e: ShipmentDelayEvent): (r: AgentResult)
    ensures WellFormed(r, RISK_AGENT)
    ensures r.recommendation == ESCALATE <==> r.score >= 0.6
    ensures r.recommendation == ESCALATE <==> e.inventoryDaysOfSupply < 7
    ensures e.inventoryDaysOfSupply < 7 ==>
      r.score == (if e.delayDays >= 3 then 1.0 else if e.delayDays == 2 then 0.85 else 0.6)
    ensures e.inventoryDaysOfSupply >= 7 ==>
      r.score == (if e.delayDays >= 3 then 0.5 else if e.delayDays == 2 then 0.25 else 0.0)
    ensures r.reason == LOW_RISK_REASON <==> e.delayDays < 2 && e.inventoryDaysOfSupply >= 7
    ensures r.reason != LOW_RISK_REASON ==> r.reason == Join(RiskReasons(e), " | ")
  {
    var delayScore := if e.delayDays >= 3 then 0.5 else if e.delayDays == 2 then 0.25 else 0.0;
    var score := Min(delayScore + (if e.inventoryDaysOfSupply < 7 then 0.6 else 0.0), 1.0);
    var reasons := RiskReasons(e);
    var reason := if |reasons| > 0 then Join(reasons, " | ") else LOW_RISK_REASON;
    assert |reasons| > 0 ==> reason != LOW_RISK_REASON by {
      if |reasons| > 0 {
        JoinStartsWithFirst(reasons, " | ");
        assert reason[0] == reasons[0][0];
      }
    }
    AgentResult(RISK_AGENT, score, if score >= 0.6 then ESCALATE else AUTO_RESOLVE, reason)
  }

  /** `CostAgent.evaluate`: orders of 100000 and more score 0.9, of 50000 and
      more 0.6, both escalating; smaller orders score 0.2 and auto-resolve. */
  function CostEvaluate(e: ShipmentDelayEvent, show: real -> string): (r: AgentResult)
    ensures WellFormed(r, COST_AGENT)
    ensures r.recommendation == ESCALATE <==> e.orderValue >= 50000.0
    ensures e.orderValue >= 100000.0 ==> r.score == 0.9
    ensures 50000.0 <= e.orderValue < 100000.0 ==> r.score == 0.6
    ensures e.orderValue < 50000.0 ==> r.score == 0.2
  {
    if e.orderValue >= 100000.0 then
      AgentResult(COST_AGENT, 0.9, ESCALATE, "order_value=" + show(e.orderValue) + " (high)")
    else if e.orderValue >= 50000.0 then
      AgentResult(COST_AGENT, 0.6, ESCALATE, "order_value=" + show(e.orderValue) + " (medium-high)")
    else
      AgentResult(COST_AGENT, 0.2, AUTO_RESOLVE, "order_value=" + show(e.orderValue) + " (normal)")
  }

  /** `SlaAgent.evaluate`: a priority shipment escalates at 0.95 whatever its
      delay; otherwise a delay beyond two days escalates at 0.85 and anything
      else auto-resolves at 0.25. */
  function SlaEvaluate(e: ShipmentDelayEvent): (r: AgentResult)
    ensures WellFormed(r, SLA_AGENT)
    ensures r.recommendation == ESCALATE <==> e.priorityFlag || e.delayDays > 2
    ensures e.priorityFlag ==> r.score == 0.95 && r.reason == PRIORITY_KEY
    ensures !e.priorityFlag && e.delayDays > 2 ==> r.score == 0.85
    ensures !e.priorityFlag && e.delayDays <= 2 ==> r.score == 0.25 && r.reason == "Within SLA buffer"
  {
    if e.priorityFlag then
      AgentResult(SLA_AGENT, 0.95, ESCALATE, PRIORITY_KEY)
    else if e.delayDays > 2 then
      AgentResult(SLA_AGENT, 0.85, ESCALATE, "delay_days=" + IntText(e.delayDays) + " exceeds SLA buffer")
    else
      AgentResult(SLA_AGENT, 0.25, AUTO_RESOLVE, "Within SLA buffer")
  }

  /** A worse event never turns an agent's ESCALATE into AUTO_RESOLVE. */
  lemma EscalationMonotone(e: ShipmentDelayEvent, e2: ShipmentDelayEvent, show: real -> string)
    requires NoMilderThan(e, e2)
    ensures RiskEvaluate(e).recommendation == ESCALATE ==> RiskEvaluate(e2).recommendation == ESCALATE
    ensures CostEvaluate(e, show).recommendation == ESCALATE ==> CostEvaluate(e2, show).recommendation == ESCALATE
    ensures SlaEvaluate(e).recommendation == ESCALATE ==> SlaEvaluate(e2).recommendation == ESCALATE
  {
  }
}
