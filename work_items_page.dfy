/**
 * The work-items screen of the web client: its display helpers (clamping,
 * percentages, colours and badges, the decision shown in the banner, the
 * sorted override breakdown) and the state its button handlers update.
 *
 * Each `async` handler is split into the step run on the click and one step
 * per awaited call that completes or fails; the `phase` field records which
 * call is in flight. The API calls themselves are left out: a step takes
 * their outcome as a parameter.
 */
module WorkItemsPage {
  import opened Wrappers
  import opened Strings
  import opened JsValues
  import opened Shipments
  import opened Display

  // ------------------------------------------------------ number display

  /** `clamp01`. */
  function Clamp01(n: JsNum): (r: real)
    ensures 0.0 <= r <= 1.0
  {
    Clamp(n, 1.0)
  }

  /** The whole percentage `fmtPct` prints: `Math.round(clamp01(n) * 100)`. */
  function PctValue(n: JsNum): (p: int)
    ensures 0 <= p <= 100
    ensures (p as real) - 0.5 <= Clamp01(n) * 100.0 < (p as real) + 0.5
    ensures Clamp01(n) == 0.0 ==> p == 0
    ensures Clamp01(n) == 1.0 ==> p == 100
  {
    Round(Clamp01(n) * 100.0)
  }

  /** `fmtPct`: the percentage followed by a percent sign. */
  function FmtPct(n: JsNum): (s: string)
    ensures 2 <= |s| <= 4 && s[|s| - 1] == '%'
    ensures forall i :: 0 <= i < |s| - 1 ==> '0' <= s[i] <= '9'
  {
    var p := PctValue(n);
    assert |NatText(p)| <= 3 by { if p >= 10 { assert |NatText(p / 10)| <= 2; } }
    NatText(p) + "%"
  }

  /** The digits of `fmtPct` read back as the rounded percentage: from 0 for
      anything at or below zero (and NaN) to 100 for anything at or above one. */
  lemma FmtPctReadsBack(n: JsNum)
    ensures var s := FmtPct(n);
      DigitsValue(s[..|s| - 1]) == PctValue(n)
    ensures (n.Fin? && n.x <= 0.0) || n.NaN? || n.NegInf? ==> FmtPct(n) == "0%"
    ensures (n.Fin? && n.x >= 1.0) || n.PosInf? ==> FmtPct(n) == "100%"
  {
    var p := PctValue(n);
    FmtPctDigits(n);
    NatTextRoundTrip(p);
    if (n.Fin? && n.x >= 1.0) || n.PosInf? {
      assert p == 100;
      NatTextHundred();
    }
  }

  lemma FmtPctDigits(n: JsNum)
    ensures var s := FmtPct(n); s[..|s| - 1] == NatText(PctValue(n))
  {
    var s := FmtPct(n);
    assert s == NatText(PctValue(n)) + "%";
  }

  lemma NatTextHundred()
    ensures NatText(100) == "100"
  {
    assert NatText(100) == NatText(10) + ['0'];
    assert NatText(10) == NatText(1) + ['0'];
  }

  /** `num`: a finite number, or 0. */
  function Num(n: JsNum): (r: real)
    ensures n.Fin? ==> r == n.x
    ensures !n.Fin? ==> r == 0.0
  {
    if n.Fin? then n.x else 0.0
  }

  /** A rate cell of the metrics panel, `fmtPct(num(v))`: always a
      percentage from 0 to 100, whatever the report holds. */
  function RateCell(v: Option<Json>, parse: string -> JsNum): (p: int)
    ensures 0 <= p <= 100
    ensures ToNumber(v, parse).Fin? && 0.0 <= ToNumber(v, parse).x <= 1.0 ==>
      (p as real) - 0.5 <= ToNumber(v, parse).x * 100.0 < (p as real) + 0.5
    ensures !ToNumber(v, parse).Fin? ==> p == 0
  {
    PctValue(Fin(Num(ToNumber(v, parse))))
  }

  // ------------------------------------------------------ colours and badges

  /** `scoreBarColor`: emerald from 0.8, amber from 0.5, red below, on the
      clamped score. */
  function ScoreBarColor(n: JsNum): (c: BarColor)
    ensures c == Emerald <==> Clamp01(n) >= 0.8
    ensures c == Amber <==> 0.5 <= Clamp01(n) < 0.8
    ensures c == Red <==> Clamp01(n) < 0.5
  {
    ThresholdColor(Clamp01(n), 0.5, 0.8)
  }

  /** A higher clamped score never gets a lower colour. */
  lemma ScoreBarColorMonotone(a: JsNum, b: JsNum)
    requires Clamp01(a) <= Clamp01(b)
    ensures ColorRank(ScoreBarColor(a)) <= ColorRank(ScoreBarColor(b))
  {
    ThresholdColorMonotone(Clamp01(a), Clamp01(b), 0.5, 0.8);
  }

  /** The badge colours: red, emerald or slate. */
  datatype Badge = RedBadge | EmeraldBadge | SlateBadge

  /** `decisionBadge`, and `recBadge`, which is the same function: the
      upper-cased text (empty when missing) against the two decision words. */
  function DecisionBadge(decision: Option<string>): (b: Badge)
    ensures b == RedBadge <==> decision.Some? && Upper(decision.value) == ESCALATE
    ensures b == EmeraldBadge <==> decision.Some? && Upper(decision.value) == AUTO_RESOLVE
  {
    var d := if decision.Some? then Upper(decision.value) else "";
    assert ESCALATE != AUTO_RESOLVE by { assert ESCALATE[0] != AUTO_RESOLVE[0]; }
    if d == ESCALATE then RedBadge
    else if d == AUTO_RESOLVE then EmeraldBadge
    else SlateBadge
  }

  /** The badge ignores letter case. */
  lemma DecisionBadgeIgnoresCase(s: string)
    ensures DecisionBadge(Some(Upper(s))) == DecisionBadge(Some(s))
  {
    UpperIdempotent(s);
  }

  // ------------------------------------------------------ what the page shows

  /** The parts of the API answers the page reads. */
  datatype ItemView = ItemView(id: string, status: string, context: Option<Json>)
  datatype RunView = RunView(workItemId: string, newStatus: string, decision: string, reason: string, confidence: JsNum)
  datatype DecisionView = DecisionView(id: string, decision: string, reason: string, confidence: JsNum, createdBy: Option<string>, createdAt: string)
  datatype TraceView = TraceView(workItem: ItemView, decisions: seq<DecisionView>)

  /** One entry of the override breakdown: an override name and its count. */
  datatype Entry = Entry(key: string, count: int)

  /** The simulations report; the breakdown is listed in the order
      `Object.entries` yields it, and is missing when the report has none. */
  datatype Report = Report(
    total: int,
    autoResolved: int,
    escalated: int,
    autoResolveRate: Option<Json>,
    escalationRate: Option<Json>,
    overrideBreakdown: Option<seq<Entry>>)

  /** `trace?.work_item?.context`. */
  function Context(trace: Option<TraceView>): (ctx: Option<Json>)
    ensures trace.None? ==> ctx.None?
  {
    if trace.None? then None else trace.value.workItem.context
  }

  /** `ctx?.agent_trace || []`. */
  function AgentTrace(ctx: Option<Json>): (t: Json)
    ensures Member(ctx, "agent_trace").None? ==> t == JArr([])
    ensures Member(ctx, "agent_trace").Some? && !JsTruthy(Member(ctx, "agent_trace").value) ==> t == JArr([])
    ensures Member(ctx, "agent_trace").Some? && JsTruthy(Member(ctx, "agent_trace").value) ==> t == Member(ctx, "agent_trace").value
  {
    var v := Member(ctx, "agent_trace");
    if v.Some? && JsTruthy(v.value) then v.value else JArr([])
  }

  /** `finalSummary?.decision`: any text, `""` included, is read as it is; a
      missing value or a falsy non-text is absent; a truthy non-text is
      `Err(TypeError)`, because the page calls `toUpperCase` on it. */
  function SummaryDecision(ctx: Option<Json>): (d: Result<Option<string>, JsError>)
    ensures var v := Member(Member(ctx, "final"), "decision");
      d.Ok? && d.value.Some? <==> v.Some? && v.value.JStr?
    ensures d.Ok? && d.value.Some? ==> Member(Member(ctx, "final"), "decision") == Some(JStr(d.value.value))
    ensures var v := Member(Member(ctx, "final"), "decision");
      d.Err? <==> v.Some? && JsTruthy(v.value) && !v.value.JStr?
  {
    match Member(Member(ctx, "final"), "decision")
    case Some(JStr(s)) => Ok(Some(s))
    case Some(v) => if JsTruthy(v) then Err(TypeError) else Ok(None)
    case None => Ok(None)
  }

  /** `(dFromRun || dFromTrace || "").toUpperCase()`: the run's decision
      takes precedence, the trace's summary is the fallback, and the summary
      is only touched, so only throws, when the run has no decision. */
  function FinalDecision(fromRun: Option<string>, fromTrace: Result<Option<string>, JsError>): (d: Result<string, JsError>)
    ensures fromRun.Some? && fromRun.value != "" ==> d == Ok(Upper(fromRun.value))
    ensures d.Err? <==> (fromRun.None? || fromRun.value == "") && fromTrace.Err?
    ensures (fromRun.None? || fromRun.value == "") && fromTrace.Ok? && fromTrace.value.Some? && fromTrace.value.value != "" ==>
      d == Ok(Upper(fromTrace.value.value))
    ensures d == Ok("") <==>
      (fromRun.None? || fromRun.value == "") && fromTrace.Ok? && (fromTrace.value.None? || fromTrace.value.value == "")
  {
    if fromRun.Some? && fromRun.value != "" then Ok(Upper(fromRun.value))
    else if fromTrace.Err? then Err(TypeError)
    else if fromTrace.value.Some? && fromTrace.value.value != "" then Ok(Upper(fromTrace.value.value))
    else Ok("")
  }

  /** The agent score a trace card draws: `clamp01(Number(a.score ?? 0))`.
      Reading `score` off a `null` element throws. */
  function AgentScore(agent: Json, parse: string -> JsNum): (s: Result<real, JsError>)
    ensures s.Err? <==> agent.JNull?
    ensures s.Ok? ==> 0.0 <= s.value <= 1.0
    ensures !agent.JNull? && Member(Some(agent), "score").None? ==> s == Ok(0.0)
  {
    if agent.JNull? then Err(TypeError)
    else
      var v := Member(Some(agent), "score");
      var n := if v.None? || v.value.JNull? then Fin(0.0) else ToNumber(v, parse);
      Ok(Clamp01(n))
  }

  /** The confidence a decision card draws: `Number(d.confidence || 0)`. */
  function DecisionConfidence(c: JsNum): (n: JsNum)
    ensures c.NaN? || c == Fin(0.0) ==> n == Fin(0.0)
    ensures !(c.NaN? || c == Fin(0.0)) ==> n == c
  {
    if c.NaN? || c == Fin(0.0) then Fin(0.0) else c
  }

  // ------------------------------------------------------ override breakdown

  predicate NonIncreasing(es: seq<Entry>) {
    forall i, j :: 0 <= i < j < |es| ==> es[i].count >= es[j].count
  }

  /** The entries with a given count, in order. */
  function WithCount(es: seq<Entry>, c: int): (r: seq<Entry>)
    ensures |r| <= |es|
  {
    if es == [] then []
    else (if es[0].count == c then [es[0]] else []) + WithCount(es[1..], c)
  }

  /** Inserts an entry before the first entry whose count is not larger. */
  function InsertByCount(e: Entry, es: seq<Entry>): (r: seq<Entry>)
    ensures multiset(r) == multiset(es) + multiset{e}
    ensures |r| == |es| + 1
  {
    if es == [] || e.count >= es[0].count then [e] + es
    else
      assert es == [es[0]] + es[1..];
      [es[0]] + InsertByCount(e, es[1..])
  }

  /** `Object.entries(ob).sort((a, b) => b[1] - a[1])`: the engine's sort is
      stable, so this is a stable sort by non-increasing count. */
  function SortByCount(es: seq<Entry>): (r: seq<Entry>)
    ensures multiset(r) == multiset(es)
    ensures |r| == |es|
  {
    if es == [] then []
    else
      assert es == [es[0]] + es[1..];
      InsertByCount(es[0], SortByCount(es[1..]))
  }

  /** An entry no smaller than every entry of an ordered list may go first. */
  lemma ConsKeepsOrder(x: Entry, rest: seq<Entry>)
    requires NonIncreasing(rest)
    requires forall k :: 0 <= k < |rest| ==> x.count >= rest[k].count
    ensures NonIncreasing([x] + rest)
  {
    var r := [x] + rest;
    forall i, j | 0 <= i < j < |r| ensures r[i].count >= r[j].count {
      assert r[j] == rest[j - 1];
      if i > 0 { assert r[i] == rest[i - 1]; }
    }
  }

  lemma {:induction false} InsertKeepsOrder(e: Entry, es: seq<Entry>)
    requires NonIncreasing(es)
    ensures NonIncreasing(InsertByCount(e, es))
  {
    if es != [] && e.count < es[0].count {
      var tail := es[1..];
      assert NonIncreasing(tail) by {
        forall i, j | 0 <= i < j < |tail| ensures tail[i].count >= tail[j].count {
          assert tail[i] == es[i + 1] && tail[j] == es[j + 1];
        }
      }
      InsertKeepsOrder(e, tail);
      var rest := InsertByCount(e, tail);
      assert multiset(rest) == multiset(tail) + multiset{e};
      forall k | 0 <= k < |rest| ensures es[0].count >= rest[k].count {
        assert rest[k] in multiset(rest);
        if rest[k] != e {
          assert rest[k] in multiset(tail);
          var m :| 0 <= m < |tail| && tail[m] == rest[k];
          assert tail[m] == es[m + 1];
        }
      }
      ConsKeepsOrder(es[0], rest);
    }
  }

  lemma {:induction false} InsertKeepsTies(e: Entry, es: seq<Entry>, c: int)
    ensures WithCount(InsertByCount(e, es), c) == (if e.count == c then [e] else []) + WithCount(es, c)
  {
    if es == [] || e.count >= es[0].count {
      assert ([e] + es)[1..] == es;
    } else {
      var r := InsertByCount(e, es);
      assert r[1..] == InsertByCount(e, es[1..]);
      InsertKeepsTies(e, es[1..], c);
    }
  }

  /** The breakdown sort lists every entry once, by non-increasing count,
      and keeps entries with equal counts in their original order. */
  lemma {:induction false} SortByCountCorrect(es: seq<Entry>)
    ensures NonIncreasing(SortByCount(es))
    ensures forall c :: WithCount(SortByCount(es), c) == WithCount(es, c)
  {
    if es != [] {
      SortByCountCorrect(es[1..]);
      InsertKeepsOrder(es[0], SortByCount(es[1..]));
      forall c ensures WithCount(SortByCount(es), c) == WithCount(es, c) {
        InsertKeepsTies(es[0], SortByCount(es[1..]), c);
      }
    }
  }

  /** `overrideBreakdownEntries`: no report or no breakdown lists nothing. */
  function BreakdownEntries(metrics: Option<Report>): (r: seq<Entry>)
    ensures metrics.None? || metrics.value.overrideBreakdown.None? ==> r == []
    ensures metrics.Some? && metrics.value.overrideBreakdown.Some? ==>
      multiset(r) == multiset(metrics.value.overrideBreakdown.value) && NonIncreasing(r)
  {
    if metrics.None? || metrics.value.overrideBreakdown.None? then []
    else
      SortByCountCorrect(metrics.value.overrideBreakdown.value);
      SortByCount(metrics.value.overrideBreakdown.value)
  }

  // ------------------------------------------------------ handlers

  const CREATE_FAILED: string := "Create failed"
  const RUN_FAILED: string := "Run failed"
  const TRACE_FAILED: string := "Trace failed"
  const METRICS_FAILED: string := "Metrics fetch failed"
  const SIMULATION_FAILED: string := "Simulation failed"
  const RESET_FAILED: string := "Reset failed"

  /** The call the work-item panel is waiting for. */
  datatype Phase = Idle | Creating | Running | TracingAfterRun | RefreshingTrace

  /** The call the metrics panel is waiting for. */
  datatype MetricsPhase = MetricsIdle | FetchingReport | Simulating | ReportAfterSimulating | Resetting | ReportAfterReset

  /** `created?.id` is a non-empty text. */
  predicate HasId(created: Option<ItemView>) {
    created.Some? && created.value.id != ""
  }

  class WorkItemsScreen {
    var created: Option<ItemView>
    var runResult: Option<RunView>
    var trace: Option<TraceView>
    var busy: bool
    var error: Option<string>
    var phase: Phase
    var metricsBusy: bool
    var metricsError: Option<string>
    var metrics: Option<Report>
    var metricsPhase: MetricsPhase

    /** Each panel is busy exactly while one of its calls is in flight. */
    ghost predicate Valid()
      reads this
    {
      && (busy <==> phase != Idle)
      && (metricsBusy <==> metricsPhase != MetricsIdle)
    }

    constructor ()
      ensures Valid()
      ensures created.None? && runResult.None? && trace.None? && !busy && error.None?
      ensures !metricsBusy && metricsError.None? && metrics.None?
    {
      created := None;
      runResult := None;
      trace := None;
      busy := false;
      error := None;
      phase := Idle;
      metricsBusy := false;
      metricsError := None;
      metrics := None;
      metricsPhase := MetricsIdle;
    }

    /** The Create button is enabled when the panel is idle; Run and Refresh
        Trace also need a created item. */
    predicate CreateEnabled()
      reads this
    {
      !busy
    }

    predicate RunEnabled()
      reads this
    {
      !busy && HasId(created)
    }

    /** `onCreate`, up to the call. */
    method OnCreate()
      requires Valid() && CreateEnabled()
      modifies this
      ensures Valid() && busy && !CreateEnabled() && !RunEnabled()
      ensures error.None? && phase == Creating
      ensures created == old(created) && runResult == old(runResult) && trace == old(trace)
      ensures metricsBusy == old(metricsBusy) && metricsError == old(metricsError) && metrics == old(metrics) && metricsPhase == old(metricsPhase)
    {
      error := None;
      busy := true;
      phase := Creating;
    }

    /** The created item arrives: it replaces the previous one and clears
        the run result and trace. */
    method CreateSucceeded(wi: ItemView)
      requires Valid() && phase == Creating
      modifies this
      ensures Valid() && !busy && phase == Idle
      ensures created == Some(wi) && runResult.None? && trace.None?
      ensures error == old(error)
      ensures metricsBusy == old(metricsBusy) && metricsError == old(metricsError) && metrics == old(metrics) && metricsPhase == old(metricsPhase)
    {
      created := Some(wi);
      runResult := None;
      trace := None;
      busy := false;
      phase := Idle;
    }

    /** The create call fails: an error is shown and the rest is kept. */
    method CreateFailed(message: Option<string>)
      requires Valid() && phase == Creating
      modifies this
      ensures Valid() && !busy && phase == Idle
      ensures error == Some(MessageOr(message, CREATE_FAILED)) && error.value != ""
      ensures created == old(created) && runResult == old(runResult) && trace == old(trace)
      ensures metricsBusy == old(metricsBusy) && metricsError == old(metricsError) && metrics == old(metrics) && metricsPhase == old(metricsPhase)
    {
      error := Some(MessageOr(message, CREATE_FAILED));
      busy := false;
      phase := Idle;
    }

    /** `onRun`, up to the run call: nothing happens without a created item. */
    method OnRun()
      requires Valid() && !busy
      modifies this
      ensures Valid()
      ensures !HasId(old(created)) ==> unchanged(this)
      ensures HasId(old(created)) ==>
        && busy && phase == Running && error.None?
        && created == old(created) && runResult == old(runResult) && trace == old(trace)
        && metricsBusy == old(metricsBusy) && metricsError == old(metricsError) && metrics == old(metrics) && metricsPhase == old(metricsPhase)
    {
      if !HasId(created) {
        return;
      }
      error := None;
      busy := true;
      phase := Running;
    }

    /** The run result arrives and is shown at once; the trace call follows. */
    method RunSucceeded(rr: RunView)
      requires Valid() && phase == Running
      modifies this
      ensures Valid() && busy && phase == TracingAfterRun
      ensures runResult == Some(rr)
      ensures created == old(created) && trace == old(trace) && error == old(error)
      ensures metricsBusy == old(metricsBusy) && metricsError == old(metricsError) && metrics == old(metrics) && metricsPhase == old(metricsPhase)
    {
      runResult := Some(rr);
      phase := TracingAfterRun;
    }

    /** A trace arrives, after a run or a refresh. */
    method TraceSucceeded(tr: TraceView)
      requires Valid() && (phase == TracingAfterRun || phase == RefreshingTrace)
      modifies this
      ensures Valid() && !busy && phase == Idle
      ensures trace == Some(tr)
      ensures created == old(created) && runResult == old(runResult) && error == old(error)
      ensures metricsBusy == old(metricsBusy) && metricsError == old(metricsError) && metrics == old(metrics) && metricsPhase == old(metricsPhase)
    {
      trace := Some(tr);
      busy := false;
      phase := Idle;
    }

    /** The run call, or the trace call after it, or a refresh fails: an
        error is shown and whatever already arrived, such as the run result,
        is kept. */
    method CallFailed(message: Option<string>)
      requires Valid() && (phase == Running || phase == TracingAfterRun || phase == RefreshingTrace)
      modifies this
      ensures Valid() && !busy && phase == Idle
      ensures error == Some(MessageOr(message, if old(phase) == RefreshingTrace then TRACE_FAILED else RUN_FAILED))
      ensures error.value != ""
      ensures created == old(created) && runResult == old(runResult) && trace == old(trace)
      ensures metricsBusy == old(metricsBusy) && metricsError == old(metricsError) && metrics == old(metrics) && metricsPhase == old(metricsPhase)
    {
      var fallback := if phase == RefreshingTrace then TRACE_FAILED else RUN_FAILED;
      error := Some(MessageOr(message, fallback));
      busy := false;
      phase := Idle;
    }

    /** `onRefreshTrace`, up to the call: nothing happens without a created
        item. */
    method OnRefreshTrace()
      requires Valid() && !busy
      modifies this
      ensures Valid()
      ensures !HasId(old(created)) ==> unchanged(this)
      ensures HasId(old(created)) ==>
        && busy && phase == RefreshingTrace && error.None?
        && created == old(created) && runResult == old(runResult) && trace == old(trace)
        && metricsBusy == old(metricsBusy) && metricsError == old(metricsError) && metrics == old(metrics) && metricsPhase == old(metricsPhase)
    {
      if !HasId(created) {
        return;
      }
      error := None;
      busy := true;
      phase := RefreshingTrace;
    }

    /** `onRefreshMetrics`, `onRunSimulations` and `onResetMetrics` up to
        their first call; the metrics buttons are enabled when that panel is
        idle. */
    method OnMetrics(start: MetricsPhase)
      requires Valid() && !metricsBusy
      requires start == FetchingReport || start == Simulating || start == Resetting
      modifies this
      ensures Valid() && metricsBusy && metricsPhase == start && metricsError.None?
      ensures metrics == old(metrics)
      ensures created == old(created) && runResult == old(runResult) && trace == old(trace)
      ensures busy == old(busy) && error == old(error) && phase == old(phase)
    {
      metricsError := None;
      metricsBusy := true;
      metricsPhase := start;
    }

    /** The simulation or reset call completes; the report is fetched next. */
    method MetricsChangeDone()
      requires Valid() && (metricsPhase == Simulating || metricsPhase == Resetting)
      modifies this
      ensures Valid() && metricsBusy
      ensures metricsPhase == if old(metricsPhase) == Simulating then ReportAfterSimulating else ReportAfterReset
      ensures metrics == old(metrics) && metricsError == old(metricsError)
      ensures created == old(created) && runResult == old(runResult) && trace == old(trace)
      ensures busy == old(busy) && error == old(error) && phase == old(phase)
    {
      metricsPhase := if metricsPhase == Simulating then ReportAfterSimulating else ReportAfterReset;
    }

    /** The report arrives. */
    method ReportArrived(r: Report)
      requires Valid() && (metricsPhase == FetchingReport || metricsPhase == ReportAfterSimulating || metricsPhase == ReportAfterReset)
      modifies this
      ensures Valid() && !metricsBusy && metricsPhase == MetricsIdle
      ensures metrics == Some(r) && metricsError == old(metricsError)
      ensures created == old(created) && runResult == old(runResult) && trace == old(trace)
      ensures busy == old(busy) && error == old(error) && phase == old(phase)
    {
      metrics := Some(r);
      metricsBusy := false;
      metricsPhase := MetricsIdle;
    }

    /** A metrics call fails: the handler's own fallback text, the previous
        report kept. */
    method MetricsFailed(message: Option<string>)
      requires Valid() && metricsBusy
      modifies this
      ensures Valid() && !metricsBusy && metricsPhase == MetricsIdle
      ensures metricsError == Some(MessageOr(message, MetricsFallback(old(metricsPhase))))
      ensures metricsError.value != ""
      ensures metrics == old(metrics)
      ensures created == old(created) && runResult == old(runResult) && trace == old(trace)
      ensures busy == old(busy) && error == old(error) && phase == old(phase)
    {
      metricsError := Some(MessageOr(message, MetricsFallback(metricsPhase)));
      metricsBusy := false;
      metricsPhase := MetricsIdle;
    }
  }

  /** The fallback error text of the metrics handler a call belongs to. */
  function MetricsFallback(p: MetricsPhase): (t: string)
    ensures t != ""
  {
    match p
    case Simulating | ReportAfterSimulating => SIMULATION_FAILED
    case Resetting | ReportAfterReset => RESET_FAILED
    case _ => METRICS_FAILED
  }
}
