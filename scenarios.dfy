/**
 * Concrete events: the five simulation scenarios and the two events of the
 * end-to-end workflow test, with what the vote orchestrator and the policy
 * rule chain make of them. The last part shows why the end-to-end test's
 * expectations cannot be met by the run route as written: the route applies
 * the rule chain, never stores an orchestrator context, and its reasons never
 * start with the orchestrator's prefixes.
 */
module Scenarios {
  import opened Wrappers
  import opened Strings
  import opened Shipments
  import opened Agents
  import opened Orchestrator
  import opened DecisionEngine
  import opened HttpErrors
  import opened WorkItems

  // ------------------------------------------------- simulation scenarios

  const SIM_1001: ShipmentDelayEvent :=
    ShipmentDelayEvent("SIM-1001", "SUP-001", "2026-03-01", "2026-03-02", 1, 14, 12000.0, "US-CENTRAL", false)
  const SIM_1002: ShipmentDelayEvent :=
    ShipmentDelayEvent("SIM-1002", "SUP-002", "2026-03-10", "2026-03-11", 1, 10, 30000.0, "US-EAST", false)
  const SIM_2001: ShipmentDelayEvent :=
    ShipmentDelayEvent("SIM-2001", "SUP-003", "2026-04-01", "2026-04-05", 4, 4, 18000.0, "US-WEST", false)
  const SIM_2002: ShipmentDelayEvent :=
    ShipmentDelayEvent("SIM-2002", "SUP-004", "2026-05-01", "2026-05-03", 2, 12, 150000.0, "US-CENTRAL", false)
  const SIM_3001: ShipmentDelayEvent :=
    ShipmentDelayEvent("SIM-3001", "SUP-005", "2026-06-01", "2026-06-02", 1, 20, 25000.0, "US-SOUTH", true)

  /** The two "auto-resolve" scenarios get no escalating vote at all, so the
      orchestrator auto-resolves them with its fixed sentence. */
  lemma AutoResolveScenarios(show: real -> string)
    ensures Orchestrate(SIM_1001, show).decision == AUTO_RESOLVE
    ensures Orchestrate(SIM_1001, show).reason == AUTO_RESOLVED_REASON
    ensures Orchestrate(SIM_1002, show).decision == AUTO_RESOLVE
    ensures Orchestrate(SIM_1002, show).reason == AUTO_RESOLVED_REASON
  {
    Unroll3(AgentResults(SIM_1001, show));
    NonPriorityReason(SIM_1001, show);
    Unroll3(AgentResults(SIM_1002, show));
    NonPriorityReason(SIM_1002, show);
  }

  /** Long delay and low stock: the risk and SLA agents escalate, a majority. */
  lemma DelayAndLowStockEscalates(show: real -> string)
    ensures Orchestrate(SIM_2001, show).decision == ESCALATE
    ensures Orchestrate(SIM_2001, show).context.final.votesEscalate == 2
    ensures StartsWith(Orchestrate(SIM_2001, show).reason, ESCALATED_PREFIX)
  {
    MajorityClosedForm(SIM_2001, show);
    Unroll3(AgentResults(SIM_2001, show));
    NonPriorityReason(SIM_2001, show);
    StartsWithConcat(ESCALATED_PREFIX, Join(EscalationReasons(AgentResults(SIM_2001, show)), " | "));
  }

  /** The scenario labelled "escalation due to high order value" gets only
      the cost agent's vote, so the orchestrator auto-resolves it, while the
      reason still opens with "Escalated because: ". */
  lemma HighOrderValueAutoResolvesUnderVote(show: real -> string)
    ensures Orchestrate(SIM_2002, show).decision == AUTO_RESOLVE
    ensures Orchestrate(SIM_2002, show).context.final.votesEscalate == 1
    ensures StartsWith(Orchestrate(SIM_2002, show).reason, ESCALATED_PREFIX)
  {
    Unroll3(AgentResults(SIM_2002, show));
    SingleVoteAutoResolves(SIM_2002, show);
  }

  /** Under the rule chain the same scenario escalates exactly when the
      policy's order-value threshold is at most 150000, or its delay or stock
      thresholds catch it. */
  lemma HighOrderValueUnderPolicy(p: Policy, show: real -> string)
    ensures DecideShipmentDelay(SIM_2002, p, show).decision == ESCALATE <==>
      p.escalateIfOrderValueGte <= 150000.0 || p.maxDelayDaysAutoResolve < 2 || p.minInventoryDaysForAutoResolve > 12
    ensures p.escalateIfOrderValueGte <= 150000.0 ==>
      DecideShipmentDelay(SIM_2002, p, show).reason == "High order value >= " + show(p.escalateIfOrderValueGte)
  {
    if p.escalateIfOrderValueGte <= 150000.0 {
      FirstMatch(SIM_2002, p, show, 2);
    }
  }

  /** The priority scenario is escalated by the override with full
      confidence. */
  lemma PriorityScenario(show: real -> string)
    ensures Orchestrate(SIM_3001, show).decision == ESCALATE
    ensures Orchestrate(SIM_3001, show).confidence == 1.0
    ensures Orchestrate(SIM_3001, show).context.final.override == Some(PRIORITY_OVERRIDE)
    ensures StartsWith(Orchestrate(SIM_3001, show).reason, PRIORITY_REASON)
  {
    PriorityReason(SIM_3001, show);
    PrefixOfPrefix(Orchestrate(SIM_3001, show).reason, PRIORITY_REASON, " | ");
  }

  /** A prefix of a prefix is a prefix. */
  lemma PrefixOfPrefix(s: string, a: string, b: string)
    requires StartsWith(s, a + b)
    ensures StartsWith(s, a)
  {
    assert s[..|a|] == (a + b)[..|a|];
  }

  // ------------------------------------------------ end-to-end test events

  const T_1001: ShipmentDelayEvent :=
    ShipmentDelayEvent("T-1001", "SUP-001", "2026-03-01", "2026-03-02", 1, 14, 25000.0, "US-CENTRAL", false)
  const T_3002: ShipmentDelayEvent :=
    ShipmentDelayEvent("T-3002", "SUP-001", "2026-03-01", "2026-03-04", 3, 5, 80000.0, "US-CENTRAL", false)

  const AUTO_RESOLVED_TEST_PREFIX: string := "Auto-resolved:"
  const ESCALATED_TEST_PREFIX: string := "Escalated because:"

  /** Under the orchestrator the test's auto-resolve event gets the outcome
      and the reason prefix the test expects. */
  lemma AutoResolveTestEventUnderVote(show: real -> string)
    ensures Orchestrate(T_1001, show).decision == AUTO_RESOLVE
    ensures StartsWith(Orchestrate(T_1001, show).reason, AUTO_RESOLVED_TEST_PREFIX)
  {
    Unroll3(AgentResults(T_1001, show));
    NonPriorityReason(T_1001, show);
    AutoResolvedReasonHasTestPrefix();
  }

  lemma AutoResolvedReasonHasTestPrefix()
    ensures StartsWith(AUTO_RESOLVED_REASON, AUTO_RESOLVED_TEST_PREFIX)
  {
    assert AUTO_RESOLVED_REASON[..|AUTO_RESOLVED_TEST_PREFIX|] == AUTO_RESOLVED_TEST_PREFIX;
  }

  /** Under the orchestrator the test's escalation event is escalated by all
      three agents, with the reason prefix the test expects. */
  lemma EscalateTestEventUnderVote(show: real -> string)
    ensures Orchestrate(T_3002, show).decision == ESCALATE
    ensures Orchestrate(T_3002, show).context.final.votesEscalate == 3
    ensures StartsWith(Orchestrate(T_3002, show).reason, ESCALATED_TEST_PREFIX)
  {
    Unroll3(AgentResults(T_3002, show));
    NonPriorityReason(T_3002, show);
    StartsWithConcat(ESCALATED_PREFIX, Join(EscalationReasons(AgentResults(T_3002, show)), " | "));
    PrefixOfPrefix(Orchestrate(T_3002, show).reason, ESCALATED_TEST_PREFIX, " ");
  }

  /** The rule chain's reasons never carry either prefix the test looks for,
      whatever the event and the policy. */
  lemma RuleReasonsLackTestPrefixes(e: ShipmentDelayEvent, p: Policy, show: real -> string)
    ensures !StartsWith(DecideShipmentDelay(e, p, show).reason, AUTO_RESOLVED_TEST_PREFIX)
    ensures !StartsWith(DecideShipmentDelay(e, p, show).reason, ESCALATED_TEST_PREFIX)
  {
    ReasonDeterminesDecision(e, p, show);
    var r := DecideShipmentDelay(e, p, show).reason;
    assert r[0] != AUTO_RESOLVED_TEST_PREFIX[0] && r[0] != ESCALATED_TEST_PREFIX[0];
  }

  /** What the end-to-end test does against the routes as written: create,
      run, trace. The item's context stays null, and the single decision in
      the trace carries the rule chain's reason, which has neither prefix. */
  method CreateRunTrace(store: WorkItemStore, e: ShipmentDelayEvent) returns (trace: Result<TraceResponse, ApiError>)
    requires store.Valid() && ValidEvent(e)
    modifies store
    ensures store.Valid()
    ensures trace.Ok?
    ensures trace.value.workItem.context == None
    ensures var d := DecideShipmentDelay(e, store.policy, store.show);
      && trace.value.workItem.status == (if d.decision == AUTO_RESOLVE then AutoResolved else Escalated)
      && |trace.value.decisions| == 1
      && trace.value.decisions[0].decision == d.decision
      && trace.value.decisions[0].reason == d.reason
    ensures !StartsWith(trace.value.decisions[0].reason, AUTO_RESOLVED_TEST_PREFIX)
    ensures !StartsWith(trace.value.decisions[0].reason, ESCALATED_TEST_PREFIX)
  {
    var created := store.Create(e);
    var id := created.value.id;
    ghost var log0 := store.log;
    assert forall i :: 0 <= i < |log0| ==> log0[i].workItemId != id by {
      assert forall i :: 0 <= i < |log0| ==> log0[i].workItemId in old(store.items);
    }
    assert store.items[id].payload == e && store.items[id].context == None;
    var run := store.Run(WellFormed(id));
    var d := DecideShipmentDelay(e, store.policy, store.show);
    var rec := Decision(old(store.nextId) + 1, id, d.decision, d.reason, d.confidence, None, old(store.clock));
    assert store.log == log0 + [rec];
    OneDecisionHistory(log0, rec, id);
    RuleReasonsLackTestPrefixes(e, store.policy, store.show);
    trace := store.Trace(WellFormed(id));
  }
}
