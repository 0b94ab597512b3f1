/**
 * The work-item routes: create a shipment-delay work item, read it, run the
 * policy decision on it, let a human review an escalated item, and read its
 * decision trace.
 *
 * The two database tables become a store object: a map from id to work item
 * and an append-only decision log. Fresh UUIDs come from a counter, and
 * `created_at` from a clock that ticks once per stored decision, so the log
 * order is the `created_at` order. The path parameter is the outcome of
 * `uuid.UUID(work_item_id)`: malformed, or a well-formed id.
 */
module WorkItems {
  import opened Wrappers
  import opened JsValues
  import opened Shipments
  import opened DecisionEngine
  import opened HttpErrors

  const SHIPMENT_DELAY: string := "SHIPMENT_DELAY"
  const APPROVE: string := "APPROVE"
  const REJECT: string := "REJECT"
  const INVALID_ID: string := "Invalid work_item_id"
  const NOT_FOUND: string := "WorkItem not found"
  const NOT_ESCALATED_PREFIX: string := "WorkItem status must be ESCALATED, got "

  /** The statuses the routes write into `work_items.status`. */
  datatype Status = New | AutoResolved | Escalated | HumanApproved | HumanRejected

  function StatusName(s: Status): string {
    match s
    case New => "NEW"
    case AutoResolved => "AUTO_RESOLVED"
    case Escalated => "ESCALATED"
    case HumanApproved => "HUMAN_APPROVED"
    case HumanRejected => "HUMAN_REJECTED"
  }

  /** A row of `work_items` (its timestamps are never read and are left out). */
  datatype WorkItem = WorkItem(id: nat, kind: string, status: Status, payload: ShipmentDelayEvent, context: Option<Json>)

  /** A row of `decisions`. */
  datatype Decision = Decision(
    id: nat,
    workItemId: nat,
    decision: string,
    reason: string,
    confidence: real,
    createdBy: Option<string>,
    createdAt: nat)

  /** What `uuid.UUID` makes of the path parameter. */
  datatype IdParam = Malformed | WellFormed(id: nat)

  datatype RunResponse = RunResponse(workItemId: nat, newStatus: Status, decision: string, reason: string, confidence: real)

  /** `HumanReviewRequest`. */
  datatype ReviewRequest = ReviewRequest(action: string, reviewer: string, comment: string)

  datatype ReviewResponse = ReviewResponse(workItemId: nat, finalStatus: Status, reviewer: string)

  datatype TraceResponse = TraceResponse(workItem: WorkItem, decisions: seq<Decision>)

  /** The review schema: the action matches `^(APPROVE|REJECT)$` exactly, the
      reviewer has at most 120 characters and the comment at most 500. */
  predicate ValidReview(req: ReviewRequest)
    ensures ValidReview(req) ==> DecisionWord(req.action)
  {
    && (req.action == APPROVE || req.action == REJECT)
    && |req.reviewer| <= 120
    && |req.comment| <= 500
  }

  /** The decision words the routes store: the rule chain's two and the
      reviewer's two. */
  predicate DecisionWord(w: string) {
    w == ESCALATE || w == AUTO_RESOLVE || w == APPROVE || w == REJECT
  }

  // ------------------------------------------------------ per-item history

  /** The decisions of one work item, in log order. */
  function DecisionsOf(log: seq<Decision>, id: nat): (ds: seq<Decision>)
    ensures |ds| <= |log|
  {
    if log == [] then []
    else
      var last := log[|log| - 1];
      DecisionsOf(log[..|log| - 1], id) + (if last.workItemId == id then [last] else [])
  }

  lemma DecisionsOfAppend(log: seq<Decision>, d: Decision, id: nat)
    ensures DecisionsOf(log + [d], id) == DecisionsOf(log, id) + (if d.workItemId == id then [d] else [])
  {
    assert (log + [d])[..|log|] == log;
  }

  lemma AppendedLast(s: seq<Decision>, a: seq<Decision>)
    requires |s| == |a| + 1 && s[..|a|] == a
    ensures s == a + [s[|a|]]
  {
  }

  /** The history of an item that had none, after one more decision for it. */
  lemma OneDecisionHistory(log: seq<Decision>, r: Decision, id: nat)
    requires forall i :: 0 <= i < |log| ==> log[i].workItemId != id
    requires r.workItemId == id
    ensures DecisionsOf(log + [r], id) == [r]
  {
    NoDecisionsOfUnknown(log, id);
    DecisionsOfAppend(log, r, id);
  }

  /** The history of an item that had none, after two more decisions for it. */
  lemma TwoDecisionHistory(log: seq<Decision>, r1: Decision, r2: Decision, id: nat)
    requires forall i :: 0 <= i < |log| ==> log[i].workItemId != id
    requires r1.workItemId == id && r2.workItemId == id
    ensures DecisionsOf(log + [r1] + [r2], id) == [r1, r2]
  {
    NoDecisionsOfUnknown(log, id);
    DecisionsOfAppend(log, r1, id);
    DecisionsOfAppend(log + [r1], r2, id);
  }

  /** The history holds exactly the log's decisions for that item. */
  lemma {:induction false} DecisionsOfMembers(log: seq<Decision>, id: nat)
    ensures forall d :: d in DecisionsOf(log, id) <==> d in log && d.workItemId == id
  {
    if log != [] {
      var init := log[..|log| - 1];
      DecisionsOfMembers(init, id);
      assert log == init + [log[|log| - 1]];
    }
  }

  lemma {:induction false} NoDecisionsOfUnknown(log: seq<Decision>, id: nat)
    requires forall i :: 0 <= i < |log| ==> log[i].workItemId != id
    ensures DecisionsOf(log, id) == []
  {
    if log != [] {
      NoDecisionsOfUnknown(log[..|log| - 1], id);
    }
  }

  /** Strictly increasing `created_at`: oldest to newest. */
  predicate Chronological(ds: seq<Decision>) {
    forall i, j :: 0 <= i < j < |ds| ==> ds[i].createdAt < ds[j].createdAt
  }

  /** The history of an item inherits the log's order. */
  lemma {:induction false} DecisionsOfChronological(log: seq<Decision>, id: nat)
    requires Chronological(log)
    ensures Chronological(DecisionsOf(log, id))
  {
    if log != [] {
      var init := log[..|log| - 1];
      var last := log[|log| - 1];
      DecisionsOfChronological(init, id);
      DecisionsOfMembers(init, id);
      var h := DecisionsOf(init, id);
      forall k | 0 <= k < |h|
        ensures h[k].createdAt < last.createdAt
      {
        assert h[k] in init;
        var i :| 0 <= i < |init| && init[i] == h[k];
        assert log[i] == h[k];
      }
    }
  }

  /** The status a stored decision word sets. */
  function StatusOfWord(w: string): Status {
    if w == AUTO_RESOLVE then AutoResolved
    else if w == APPROVE then HumanApproved
    else if w == REJECT then HumanRejected
    else Escalated
  }

  /** The status an item's history leads to: NEW without decisions,
      otherwise the one its latest decision sets. */
  function StatusAfter(ds: seq<Decision>): (s: Status)
    ensures s == New <==> ds == []
  {
    if ds == [] then New else StatusOfWord(ds[|ds| - 1].decision)
  }

  /** The run route's and the review route's status choices are the ones
      their decision words set. */
  lemma StatusOfRuleWords(w: string)
    requires w == ESCALATE || w == AUTO_RESOLVE
    ensures StatusOfWord(w) == if w == AUTO_RESOLVE then AutoResolved else Escalated
  {
    if w == ESCALATE {
      assert w[1] == 'S';
      assert APPROVE[1] == 'P' && REJECT[1] == 'E' && AUTO_RESOLVE[1] == 'U';
    }
  }

  lemma StatusOfReviewWords(w: string)
    requires w == APPROVE || w == REJECT
    ensures StatusOfWord(w) == if w == APPROVE then HumanApproved else HumanRejected
  {
    assert APPROVE[1] == 'P' && REJECT[1] == 'E' && AUTO_RESOLVE[1] == 'U';
  }

  /** Every human decision in a history comes right after an escalation. */
  predicate ReviewsFollowEscalations(ds: seq<Decision>) {
    forall k :: 0 <= k < |ds| && (ds[k].decision == APPROVE || ds[k].decision == REJECT) ==>
      k > 0 && ds[k - 1].decision == ESCALATE
  }

  /** Appending a decision keeps the property when the decision is not a
      review, or when the history ends with an escalation. */
  lemma ReviewsFollowAppend(ds: seq<Decision>, d: Decision)
    requires ReviewsFollowEscalations(ds)
    requires (d.decision != APPROVE && d.decision != REJECT) || (ds != [] && ds[|ds| - 1].decision == ESCALATE)
    ensures ReviewsFollowEscalations(ds + [d])
  {
    var t := ds + [d];
    forall k | 0 <= k < |t| && (t[k].decision == APPROVE || t[k].decision == REJECT)
      ensures k > 0 && t[k - 1].decision == ESCALATE
    {
      if k < |ds| {
        assert t[k] == ds[k];
        if k > 0 { assert t[k - 1] == ds[k - 1]; }
      }
    }
  }

  /** An item whose history ends in ESCALATED ends with an escalation. */
  lemma EscalatedEndsWithEscalate(ds: seq<Decision>)
    requires forall i :: 0 <= i < |ds| ==> DecisionWord(ds[i].decision)
    requires StatusAfter(ds) == Escalated
    ensures ds != [] && ds[|ds| - 1].decision == ESCALATE
  {
    assert DecisionWord(ds[|ds| - 1].decision);
  }

  // ------------------------------------------------------------ the store

  /** Each item is stored under its own id, below the id counter, as a
      shipment-delay item with a valid payload and no context. */
  predicate ItemsOk(items: map<nat, WorkItem>, nextId: nat) {
    forall id :: id in items ==>
      && items[id].id == id
      && id < nextId
      && items[id].kind == SHIPMENT_DELAY
      && items[id].context.None?
      && ValidEvent(items[id].payload)
  }

  /** Each decision belongs to a stored item, has a fresh id and a stored
      decision word, and the log is in `created_at` order. */
  predicate LogOk(items: map<nat, WorkItem>, log: seq<Decision>, nextId: nat, clock: nat) {
    && (forall i :: 0 <= i < |log| ==>
          && log[i].workItemId in items
          && log[i].id < nextId
          && log[i].createdAt < clock
          && DecisionWord(log[i].decision))
    && (forall i, j :: 0 <= i < j < |log| ==> log[i].id != log[j].id)
    && Chronological(log)
  }

  /** Each item's status is the one its history leads to, and each human
      review in it follows an escalation. */
  predicate HistoriesOk(items: map<nat, WorkItem>, log: seq<Decision>) {
    forall id :: id in items ==>
      && items[id].status == StatusAfter(DecisionsOf(log, id))
      && ReviewsFollowEscalations(DecisionsOf(log, id))
  }

  /** Storing a new item keeps the invariants. */
  lemma AddItemKeepsInvariants(items: map<nat, WorkItem>, log: seq<Decision>, nextId: nat, clock: nat, e: ShipmentDelayEvent)
    requires ItemsOk(items, nextId) && LogOk(items, log, nextId, clock) && HistoriesOk(items, log)
    requires ValidEvent(e)
    ensures nextId !in items
    ensures var items' := items[nextId := WorkItem(nextId, SHIPMENT_DELAY, New, e, None)];
      ItemsOk(items', nextId + 1) && LogOk(items', log, nextId + 1, clock) && HistoriesOk(items', log)
  {
    var items' := items[nextId := WorkItem(nextId, SHIPMENT_DELAY, New, e, None)];
    NoDecisionsOfUnknown(log, nextId);
    assert HistoriesOk(items', log) by {
      forall id | id in items'
        ensures items'[id].status == StatusAfter(DecisionsOf(log, id))
        ensures ReviewsFollowEscalations(DecisionsOf(log, id))
      {
        if id != nextId { assert items'[id] == items[id]; }
      }
    }
  }

  /** Appending a decision with a fresh id and the current clock keeps the
      log invariant, whatever the items' statuses become. */
  lemma AppendKeepsLog(items: map<nat, WorkItem>, items': map<nat, WorkItem>, log: seq<Decision>, nextId: nat, clock: nat, rec: Decision)
    requires LogOk(items, log, nextId, clock) && items'.Keys == items.Keys
    requires rec.workItemId in items && rec.id == nextId && rec.createdAt == clock && DecisionWord(rec.decision)
    ensures LogOk(items', log + [rec], nextId + 1, clock + 1)
  {
    var log' := log + [rec];
    forall i | 0 <= i < |log'|
      ensures log'[i].workItemId in items' && log'[i].id < nextId + 1
      ensures log'[i].createdAt < clock + 1 && DecisionWord(log'[i].decision)
    {
      if i < |log| { assert log'[i] == log[i]; }
    }
    forall i, j | 0 <= i < j < |log'|
      ensures log'[i].id != log'[j].id && log'[i].createdAt < log'[j].createdAt
    {
      assert log'[i] == log[i];
      if j < |log| { assert log'[j] == log[j]; }
    }
  }

  /** The history of the item a decision is appended for: its status becomes
      the one the decision word sets, and a review still follows an
      escalation when the item was escalated before it. */
  lemma AppendKeepsHistory(log: seq<Decision>, rec: Decision, before: Status, st: Status)
    requires forall i :: 0 <= i < |log| ==> DecisionWord(log[i].decision)
    requires before == StatusAfter(DecisionsOf(log, rec.workItemId))
    requires ReviewsFollowEscalations(DecisionsOf(log, rec.workItemId))
    requires DecisionWord(rec.decision) && st == StatusOfWord(rec.decision)
    requires rec.decision == APPROVE || rec.decision == REJECT ==> before == Escalated
    ensures st == StatusAfter(DecisionsOf(log + [rec], rec.workItemId))
    ensures ReviewsFollowEscalations(DecisionsOf(log + [rec], rec.workItemId))
  {
    var id := rec.workItemId;
    var h := DecisionsOf(log, id);
    DecisionsOfAppend(log, rec, id);
    assert DecisionsOf(log + [rec], id) == h + [rec];
    if rec.decision == APPROVE || rec.decision == REJECT {
      HistoryWords(log, id);
      EscalatedEndsWithEscalate(h);
    }
    ReviewsFollowAppend(h, rec);
  }

  /** An item's history holds only stored decision words when the log does. */
  lemma HistoryWords(log: seq<Decision>, id: nat)
    requires forall i :: 0 <= i < |log| ==> DecisionWord(log[i].decision)
    ensures forall i :: 0 <= i < |DecisionsOf(log, id)| ==> DecisionWord(DecisionsOf(log, id)[i].decision)
  {
    var h := DecisionsOf(log, id);
    DecisionsOfMembers(log, id);
    forall i | 0 <= i < |h| ensures DecisionWord(h[i].decision) {
      assert h[i] in h;
      var j :| 0 <= j < |log| && log[j] == h[i];
    }
  }

  /** Changing a stored item's status keeps the item invariant. */
  lemma StatusChangeKeepsItems(items: map<nat, WorkItem>, nextId: nat, id0: nat, st: Status)
    requires ItemsOk(items, nextId) && id0 in items
    ensures ItemsOk(items[id0 := items[id0].(status := st)], nextId + 1)
  {
    var items' := items[id0 := items[id0].(status := st)];
    forall id | id in items' ensures items'[id].id == id && id < nextId + 1 {
      assert items'[id].id == items[id].id;
    }
  }

  /** Appending a decision for one item leaves the other items' histories
      alone and moves that item to the status the decision sets. */
  lemma AppendKeepsHistories(items: map<nat, WorkItem>, log: seq<Decision>, rec: Decision, st: Status)
    requires HistoriesOk(items, log) && rec.workItemId in items
    requires forall i :: 0 <= i < |log| ==> DecisionWord(log[i].decision)
    requires DecisionWord(rec.decision) && st == StatusOfWord(rec.decision)
    requires rec.decision == APPROVE || rec.decision == REJECT ==> items[rec.workItemId].status == Escalated
    ensures HistoriesOk(items[rec.workItemId := items[rec.workItemId].(status := st)], log + [rec])
  {
    var id0 := rec.workItemId;
    var items' := items[id0 := items[id0].(status := st)];
    var log' := log + [rec];
    AppendKeepsHistory(log, rec, items[id0].status, st);
    forall id | id in items'
      ensures items'[id].status == StatusAfter(DecisionsOf(log', id))
      ensures ReviewsFollowEscalations(DecisionsOf(log', id))
    {
      if id != id0 {
        DecisionsOfAppend(log, rec, id);
        assert items'[id] == items[id];
      }
    }
  }

  /** Appending a fresh decision for a stored item, together with the status
      it leads to, keeps the invariants; a review is appended only to an
      escalated item. */
  lemma AppendKeepsInvariants(items: map<nat, WorkItem>, log: seq<Decision>, nextId: nat, clock: nat, rec: Decision, st: Status)
    requires ItemsOk(items, nextId) && LogOk(items, log, nextId, clock) && HistoriesOk(items, log)
    requires rec.workItemId in items && rec.id == nextId && rec.createdAt == clock
    requires DecisionWord(rec.decision) && st == StatusOfWord(rec.decision)
    requires rec.decision == APPROVE || rec.decision == REJECT ==> items[rec.workItemId].status == Escalated
    ensures var items' := items[rec.workItemId := items[rec.workItemId].(status := st)];
      ItemsOk(items', nextId + 1) && LogOk(items', log + [rec], nextId + 1, clock + 1) && HistoriesOk(items', log + [rec])
  {
    var items' := items[rec.workItemId := items[rec.workItemId].(status := st)];
    StatusChangeKeepsItems(items, nextId, rec.workItemId, st);
    AppendKeepsLog(items, items', log, nextId, clock, rec);
    AppendKeepsHistories(items, log, rec, st);
  }

  class WorkItemStore {
    var items: map<nat, WorkItem>
    var log: seq<Decision>
    var nextId: nat
    var clock: nat
    /** The policy table the run route consults, and how it renders a real. */
    const policy: Policy
    const show: real -> string

    ghost predicate Valid()
      reads this
    {
      ItemsOk(items, nextId) && LogOk(items, log, nextId, clock) && HistoriesOk(items, log)
    }

    constructor (policy: Policy, show: real -> string)
      ensures Valid()
      ensures items == map[] && log == [] && nextId == 0 && clock == 0
      ensures this.policy == policy && this.show == show
    {
      items := map[];
      log := [];
      nextId := 0;
      clock := 0;
      this.policy := policy;
      this.show := show;
    }

    /** The id lookup every route but create starts with. */
    function Resolve(p: IdParam): (r: Result<nat, ApiError>)
      reads this
      ensures p.Malformed? ==> r == Err(HttpError(400, INVALID_ID))
      ensures p.WellFormed? && p.id !in items ==> r == Err(HttpError(404, NOT_FOUND))
      ensures p.WellFormed? && p.id in items ==> r == Ok(p.id)
    {
      if p.Malformed? then Err(HttpError(400, INVALID_ID))
      else if p.id !in items then Err(HttpError(404, NOT_FOUND))
      else Ok(p.id)
    }

    /** `create_work_item`. */
    method Create(event: ShipmentDelayEvent) returns (r: Result<WorkItem, ApiError>)
      requires Valid()
      modifies this
      ensures Valid()
      ensures !ValidEvent(event) ==> r == Err(ValidationError) && unchanged(this)
      ensures ValidEvent(event) ==>
        && r == Ok(WorkItem(old(nextId), SHIPMENT_DELAY, New, event, None))
        && old(nextId) !in old(items)
        && items == old(items)[old(nextId) := r.value]
        && log == old(log) && clock == old(clock) && nextId == old(nextId) + 1
    {
      if !ValidEvent(event) {
        return Err(ValidationError);
      }
      var id := nextId;
      var wi := WorkItem(id, SHIPMENT_DELAY, New, event, None);
      AddItemKeepsInvariants(items, log, nextId, clock, event);
      items := items[id := wi];
      nextId := nextId + 1;
      r := Ok(wi);
    }

    /** `get_work_item`. */
    method Get(p: IdParam) returns (r: Result<WorkItem, ApiError>)
      ensures Resolve(p).Err? ==> r == Err(Resolve(p).error)
      ensures Resolve(p).Ok? ==> r == Ok(items[p.id])
    {
      var id := Resolve(p);
      if id.Err? {
        return Err(id.error);
      }
      r := Ok(items[id.value]);
    }

    /** `run_work_item`: no status precondition, so every run adds a
        decision to the item's history. */
    method Run(p: IdParam) returns (r: Result<RunResponse, ApiError>)
      requires Valid()
      modifies this
      ensures Valid()
      ensures old(Resolve(p)).Err? ==> r == Err(old(Resolve(p)).error) && unchanged(this)
      ensures old(Resolve(p)).Ok? ==>
        var id := p.id;
        var d := DecideShipmentDelay(old(items)[id].payload, policy, show);
        var st := if d.decision == AUTO_RESOLVE then AutoResolved else Escalated;
        && r == Ok(RunResponse(id, st, d.decision, d.reason, d.confidence))
        && items == old(items)[id := old(items)[id].(status := st)]
        && log == old(log) + [Decision(old(nextId), id, d.decision, d.reason, d.confidence, None, old(clock))]
        && nextId == old(nextId) + 1 && clock == old(clock) + 1
    {
      var res := Resolve(p);
      if res.Err? {
        return Err(res.error);
      }
      var id := res.value;
      var wi := items[id];
      var d := DecideShipmentDelay(wi.payload, policy, show);
      var st := if d.decision == AUTO_RESOLVE then AutoResolved else Escalated;
      var rec := Decision(nextId, id, d.decision, d.reason, d.confidence, None, clock);
      StatusOfRuleWords(d.decision);
      AppendKeepsInvariants(items, log, nextId, clock, rec, st);
      items := items[id := wi.(status := st)];
      log := log + [rec];
      nextId := nextId + 1;
      clock := clock + 1;
      r := Ok(RunResponse(id, st, d.decision, d.reason, d.confidence));
    }

    /** `review_work_item`: only an escalated item can be reviewed. */
    method Review(p: IdParam, req: ReviewRequest) returns (r: Result<ReviewResponse, ApiError>)
      requires Valid()
      modifies this
      ensures Valid()
      ensures !ValidReview(req) ==> r == Err(ValidationError) && unchanged(this)
      ensures ValidReview(req) && old(Resolve(p)).Err? ==> r == Err(old(Resolve(p)).error) && unchanged(this)
      ensures ValidReview(req) && old(Resolve(p)).Ok? && old(items)[p.id].status != Escalated ==>
        && r == Err(HttpError(400, NOT_ESCALATED_PREFIX + StatusName(old(items)[p.id].status)))
        && unchanged(this)
      ensures ValidReview(req) && old(Resolve(p)).Ok? && old(items)[p.id].status == Escalated ==>
        var st := if req.action == APPROVE then HumanApproved else HumanRejected;
        && r == Ok(ReviewResponse(p.id, st, req.reviewer))
        && items == old(items)[p.id := old(items)[p.id].(status := st)]
        && log == old(log) + [Decision(old(nextId), p.id, req.action, req.comment, 1.0, Some(req.reviewer), old(clock))]
        && nextId == old(nextId) + 1 && clock == old(clock) + 1
    {
      if !ValidReview(req) {
        return Err(ValidationError);
      }
      var res := Resolve(p);
      if res.Err? {
        return Err(res.error);
      }
      var id := res.value;
      var wi := items[id];
      if wi.status != Escalated {
        return Err(HttpError(400, NOT_ESCALATED_PREFIX + StatusName(wi.status)));
      }
      var st := if req.action == APPROVE then HumanApproved else HumanRejected;
      var rec := Decision(nextId, id, req.action, req.comment, 1.0, Some(req.reviewer), clock);
      StatusOfReviewWords(req.action);
      AppendKeepsInvariants(items, log, nextId, clock, rec, st);
      items := items[id := wi.(status := st)];
      log := log + [rec];
      nextId := nextId + 1;
      clock := clock + 1;
      r := Ok(ReviewResponse(id, st, req.reviewer));
    }

    /** `get_work_item_trace`: the item with its decisions, oldest first. */
    method Trace(p: IdParam) returns (r: Result<TraceResponse, ApiError>)
      ensures Resolve(p).Err? ==> r == Err(Resolve(p).error)
      ensures Resolve(p).Ok? ==> r == Ok(TraceResponse(items[p.id], DecisionsOf(log, p.id)))
    {
      var res := Resolve(p);
      if res.Err? {
        return Err(res.error);
      }
      var id := res.value;
      var out: seq<Decision> := [];
      for i := 0 to |log|
        invariant out == DecisionsOf(log[..i], id)
      {
        assert log[..i + 1][..i] == log[..i];
        if log[i].workItemId == id {
          out := out + [log[i]];
        }
      }
      assert log[..|log|] == log;
      r := Ok(TraceResponse(items[id], out));
    }
  }

  /** The whole lifecycle of an item the policy escalates: created NEW, run
      to ESCALATED, approved by a reviewer; its trace then holds the rule's
      escalation followed by the approval. */
  method EscalateThenApprove(store: WorkItemStore, e: ShipmentDelayEvent, reviewer: string, comment: string)
    returns (id: nat, trace: Result<TraceResponse, ApiError>)
    requires store.Valid() && ValidEvent(e)
    requires DecideShipmentDelay(e, store.policy, store.show).decision == ESCALATE
    requires |reviewer| <= 120 && |comment| <= 500
    modifies store
    ensures store.Valid()
    ensures trace.Ok? && trace.value.workItem.status == HumanApproved
    ensures var ds := trace.value.decisions;
      && |ds| == 2
      && ds[0].decision == ESCALATE && ds[0].reason == DecideShipmentDelay(e, store.policy, store.show).reason
      && ds[1].decision == APPROVE && ds[1].reason == comment && ds[1].createdBy == Some(reviewer)
      && ds[0].createdAt < ds[1].createdAt
  {
    ghost var log0, rec1;
    id, log0, rec1 := CreateEscalated(store, e);
    ghost var log1 := store.log;
    assert ValidReview(ReviewRequest(APPROVE, reviewer, comment));
    assert store.Resolve(WellFormed(id)) == Ok(id);
    ghost var clock1 := store.clock;
    var review := store.Review(WellFormed(id), ReviewRequest(APPROVE, reviewer, comment));
    var rec2 := store.log[|log1|];
    assert |store.log| == |log1| + 1 && store.log[..|log1|] == log1;
    AppendedLast(store.log, log1);
    assert rec2.workItemId == id && rec2.decision == APPROVE && rec2.reason == comment && rec2.createdBy == Some(reviewer);
    assert rec2.createdAt == clock1;
    TwoDecisionHistory(log0, rec1, rec2, id);
    assert store.items[id].status == HumanApproved;
    trace := store.Trace(WellFormed(id));
    assert trace == Ok(TraceResponse(store.items[id], [rec1, rec2]));
  }

  /** The first half of the walk above: a created item that the rule chain
      escalates, with its one decision as the latest entry of the log. */
  method CreateEscalated(store: WorkItemStore, e: ShipmentDelayEvent)
    returns (id: nat, ghost log0: seq<Decision>, ghost rec1: Decision)
    requires store.Valid() && ValidEvent(e)
    requires DecideShipmentDelay(e, store.policy, store.show).decision == ESCALATE
    modifies store
    ensures store.Valid()
    ensures id in store.items && store.items[id].status == Escalated
    ensures forall i :: 0 <= i < |log0| ==> log0[i].workItemId != id
    ensures store.log == log0 + [rec1]
    ensures rec1.workItemId == id && rec1.decision == ESCALATE
    ensures rec1.reason == DecideShipmentDelay(e, store.policy, store.show).reason
    ensures rec1.createdAt < store.clock
  {
    var created := store.Create(e);
    id := created.value.id;
    log0 := store.log;
    assert forall i :: 0 <= i < |log0| ==> log0[i].workItemId != id by {
      assert forall i :: 0 <= i < |log0| ==> log0[i].workItemId in old(store.items);
    }
    assert store.items[id].payload == e;
    var run := store.Run(WellFormed(id));
    var d := DecideShipmentDelay(e, store.policy, store.show);
    assert ESCALATE != AUTO_RESOLVE by { assert ESCALATE[0] != AUTO_RESOLVE[0]; }
    rec1 := Decision(old(store.nextId) + 1, id, d.decision, d.reason, d.confidence, None, old(store.clock));
    assert store.log == log0 + [rec1];
  }

  /** The trace of a valid store lists exactly the item's decisions, oldest
      to newest. */
  lemma TraceIsCompleteAndOrdered(log: seq<Decision>, id: nat)
    requires Chronological(log)
    ensures forall d :: d in DecisionsOf(log, id) <==> d in log && d.workItemId == id
    ensures Chronological(DecisionsOf(log, id))
  {
    DecisionsOfMembers(log, id);
    DecisionsOfChronological(log, id);
  }
}
