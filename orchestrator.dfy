/**
 * `orchestrate`: runs the three agents, applies the priority-flag override or
 * else a two-of-three majority vote, and builds the explainability context
 * (the agent trace and the final summary).
 *
 * Scores are exact reals here; Python computes them in binary floating point.
 */
module Orchestrator {
  import opened Wrappers
  import opened Strings
  import opened Shipments
  import opened Agents

  /** The `final` entry of the context; `override` is absent outside the
      priority branch. */
  datatype FinalSummary = FinalSummary(decision: string, votesEscalate: nat, avgScore: real, override: Option<string>)

  /** The explainability context: one trace entry per agent, then the summary. */
  datatype Context = Context(agentTrace: seq<AgentResult>, final: FinalSummary)

  datatype Orchestration = Orchestration(decision: string, reason: string, confidence: real, context: Context)

  const PRIORITY_OVERRIDE: string := "PRIORITY_FLAG"
  const PRIORITY_REASON: string := "Escalated because: priority shipment (priority_flag=true)"
  const ESCALATED_PREFIX: string := "Escalated because: "
  const AUTO_RESOLVED_REASON: string := "Auto-resolved: all agents indicate low risk."

  /** The agents in their fixed order, each evaluated on the event. */
  function AgentResults(e: ShipmentDelayEvent, show: real -> string): (rs: seq<AgentResult>)
    ensures |rs| == 3
    ensures WellFormed(rs[0], RISK_AGENT) && WellFormed(rs[1], COST_AGENT) && WellFormed(rs[2], SLA_AGENT)
  {
    [RiskEvaluate(e), CostEvaluate(e, show), SlaEvaluate(e)]
  }

  /** The number of results recommending ESCALATE. */
  function EscalateVotes(rs: seq<AgentResult>): (n: nat)
    ensures n <= |rs|
  {
    if rs == [] then 0 else (if rs[0].recommendation == ESCALATE then 1 else 0) + EscalateVotes(rs[1..])
  }

  /** The reasons of the escalating results, in agent order. */
  function EscalationReasons(rs: seq<AgentResult>): (reasons: seq<string>)
    ensures |reasons| == EscalateVotes(rs)
  {
    if rs == [] then []
    else (if rs[0].recommendation == ESCALATE then [rs[0].reason] else []) + EscalationReasons(rs[1..])
  }

  function ScoreSum(rs: seq<AgentResult>): real {
    if rs == [] then 0.0 else rs[0].score + ScoreSum(rs[1..])
  }

  /** The three per-agent quantities the orchestrator aggregates, spelled out
      for a list of three results. */
  lemma Unroll3(rs: seq<AgentResult>)
    requires |rs| == 3
    ensures ScoreSum(rs) == rs[0].score + rs[1].score + rs[2].score
    ensures EscalateVotes(rs) ==
      (if rs[0].recommendation == ESCALATE then 1 else 0)
      + (if rs[1].recommendation == ESCALATE then 1 else 0)
      + (if rs[2].recommendation == ESCALATE then 1 else 0)
    ensures EscalationReasons(rs) ==
      (if rs[0].recommendation == ESCALATE then [rs[0].reason] else [])
      + (if rs[1].recommendation == ESCALATE then [rs[1].reason] else [])
      + (if rs[2].recommendation == ESCALATE then [rs[2].reason] else [])
  {
    var r1 := rs[1..];
    var r2 := r1[1..];
    assert r2[1..] == [];
    assert r1[0] == rs[1] && r2[0] == rs[2];
    assert ScoreSum(r2) == rs[2].score;
    assert EscalationReasons(r2) == (if rs[2].recommendation == ESCALATE then [rs[2].reason] else []);
  }

  /** The reason of the priority branch. */
  function OverrideReason(keyReasons: seq<string>): string {
    if |keyReasons| > 0 then PRIORITY_REASON + " | " + Join(keyReasons, " | ") else PRIORITY_REASON
  }

  /** The reason of the voting branch. */
  function VoteReason(keyReasons: seq<string>): string {
    if |keyReasons| > 0 then ESCALATED_PREFIX + Join(keyReasons, " | ") else AUTO_RESOLVED_REASON
  }

  /** Rounding to three decimal places, halves upwards. For the scores the
      agents produce, `1000 * (0.5 + avg / 2)` is a whole number plus a
      multiple of 1/3, so a tie never arises and Python's rounding mode makes
      no difference. */
  function Round3(x: real): (r: real)
    ensures r - 0.0005 <= x < r + 0.0005
    ensures (r * 1000.0).Floor as real == r * 1000.0
  {
    (x * 1000.0 + 0.5).Floor as real / 1000.0
  }

  /** A value in [0.5, 1] stays in [0.5, 1] when rounded to three places. */
  lemma Round3Bounds(x: real)
    requires 0.5 <= x <= 1.0
    ensures 0.5 <= Round3(x) <= 1.0
  {
    var k := (x * 1000.0 + 0.5).Floor;
    assert 500 <= k <= 1000;
  }

  function Orchestrate(e: ShipmentDelayEvent, show: real -> string): (o: Orchestration)
    ensures o.context.agentTrace == AgentResults(e, show)
    ensures o.context.final.decision == o.decision
    ensures o.decision == ESCALATE || o.decision == AUTO_RESOLVE
    ensures o.context.final.avgScore == ScoreSum(AgentResults(e, show)) / 3.0
    ensures 0.0 <= o.context.final.avgScore <= 1.0
    ensures e.priorityFlag ==>
      && o.decision == ESCALATE
      && o.confidence == 1.0
      && o.context.final.override == Some(PRIORITY_OVERRIDE)
      && o.context.final.votesEscalate == 3
    ensures !e.priorityFlag ==>
      && (o.decision == ESCALATE <==> EscalateVotes(AgentResults(e, show)) >= 2)
      && o.context.final.votesEscalate == EscalateVotes(AgentResults(e, show))
      && o.context.final.override == None
      && o.confidence == Round3(Min(1.0, 0.5 + o.context.final.avgScore / 2.0))
      && 0.5 <= o.confidence <= 1.0
  {
    var results := AgentResults(e, show);
    Unroll3(results);
    var avg := ScoreSum(results) / 3.0;
    var keyReasons := EscalationReasons(results);
    var trace := results;
    if e.priorityFlag then
      Orchestration(ESCALATE, OverrideReason(keyReasons), 1.0,
        Context(trace, FinalSummary(ESCALATE, |results|, avg, Some(PRIORITY_OVERRIDE))))
    else
      var votes := EscalateVotes(results);
      var decision := if votes >= 2 then ESCALATE else AUTO_RESOLVE;
      Round3Bounds(Min(1.0, 0.5 + avg / 2.0));
      Orchestration(decision, VoteReason(keyReasons), Round3(Min(1.0, 0.5 + avg / 2.0)),
        Context(trace, FinalSummary(decision, votes, avg, None)))
  }

  /** The trace names RiskAgent, CostAgent and SlaAgent in that order. */
  lemma TraceShape(e: ShipmentDelayEvent, show: real -> string)
    ensures var t := Orchestrate(e, show).context.agentTrace;
      |t| == 3 && t[0].name == RISK_AGENT && t[1].name == COST_AGENT && t[2].name == SLA_AGENT
  {
  }

  /** With the priority flag, the SLA agent always escalates, so the reason is
      the fixed priority sentence followed by the escalating agents' reasons,
      ending in the SLA agent's "priority_flag=true". */
  lemma PriorityReason(e: ShipmentDelayEvent, show: real -> string)
    requires e.priorityFlag
    ensures var rs := AgentResults(e, show);
      Orchestrate(e, show).reason == PRIORITY_REASON + " | " + Join(EscalationReasons(rs), " | ")
    ensures StartsWith(Orchestrate(e, show).reason, PRIORITY_REASON + " | ")
    ensures EndsWith(Orchestrate(e, show).reason, " | " + PRIORITY_KEY)
  {
    var rs := AgentResults(e, show);
    Unroll3(rs);
    var keys := EscalationReasons(rs);
    assert keys[|keys| - 1] == SlaEvaluate(e).reason;
    OverrideReasonShape(keys);
  }

  lemma OverrideReasonShape(keys: seq<string>)
    requires |keys| > 0
    ensures OverrideReason(keys) == PRIORITY_REASON + " | " + Join(keys, " | ")
    ensures StartsWith(OverrideReason(keys), PRIORITY_REASON + " | ")
    ensures EndsWith(OverrideReason(keys), " | " + keys[|keys| - 1])
  {
    JoinedAfter(PRIORITY_REASON, keys, " | ");
  }

  /** Without the priority flag, the reason says "Escalated because:" exactly
      when at least one agent escalated, even if the single vote lost, and is
      the fixed auto-resolve sentence otherwise. */
  lemma NonPriorityReason(e: ShipmentDelayEvent, show: real -> string)
    requires !e.priorityFlag
    ensures var o := Orchestrate(e, show);
      var votes := EscalateVotes(AgentResults(e, show));
      && (votes >= 1 ==> o.reason == ESCALATED_PREFIX + Join(EscalationReasons(AgentResults(e, show)), " | "))
      && (votes == 0 <==> o.reason == AUTO_RESOLVED_REASON)
  {
    var o := Orchestrate(e, show);
    var votes := EscalateVotes(AgentResults(e, show));
    if votes >= 1 {
      var body := Join(EscalationReasons(AgentResults(e, show)), " | ");
      assert o.reason == ESCALATED_PREFIX + body;
      assert o.reason[0] == 'E' != AUTO_RESOLVED_REASON[0];
    }
  }

  /** The vote, in terms of the event: without priority the orchestrator
      escalates exactly when two of "stock under a week", "order of at least
      50000" and "delay beyond two days" hold. */
  lemma MajorityClosedForm(e: ShipmentDelayEvent, show: real -> string)
    requires !e.priorityFlag
    ensures Orchestrate(e, show).decision == ESCALATE <==>
      (if e.inventoryDaysOfSupply < 7 then 1 else 0)
      + (if e.orderValue >= 50000.0 then 1 else 0)
      + (if e.delayDays > 2 then 1 else 0) >= 2
  {
    Unroll3(AgentResults(e, show));
  }

  /** One escalating agent is not enough: the decision is AUTO_RESOLVE while
      the reason still opens with "Escalated because: ". */
  lemma SingleVoteAutoResolves(e: ShipmentDelayEvent, show: real -> string)
    requires !e.priorityFlag && EscalateVotes(AgentResults(e, show)) == 1
    ensures Orchestrate(e, show).decision == AUTO_RESOLVE
    ensures StartsWith(Orchestrate(e, show).reason, ESCALATED_PREFIX)
  {
    NonPriorityReason(e, show);
  }
}
