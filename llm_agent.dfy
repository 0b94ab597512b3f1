/**
 * The sanitising around the LLM decision agent: order-preserving dedup of the
 * retrieved chunk texts, code-fence stripping before the JSON parse, and the
 * normalisation of the parsed answer into an agent verdict with safe
 * ESCALATE/0.5 fallbacks.
 *
 * The chat completion, the embedding and the vector search are not modelled:
 * their outcome is the `LlmCall` input. `json.loads`, Python's `str` of a
 * non-string JSON value and `float` of a string are the `Runtime` parameter.
 */
module LlmAgent {
  import opened Wrappers
  import opened Strings
  import opened JsValues
  import opened Shipments
  import opened Agents
  import opened Knowledge

  const LLM_AGENT: string := "LlmDecisionAgent"
  const PARSE_FAILED_REASON: string := "LLM parsing failed (non-JSON response)."
  const AGENT_FAILED_REASON: string := "LLM agent failed; safe default escalation."
  const NO_REASON: string := "No reason provided"

  // ---------------------------------------------------------------- dedup

  /** What `_dedup_keep_order` returns: the keys of the items (their stripped
      texts, `key` being `PyStrip`), blank keys dropped, each key kept at its
      first occurrence. Defined from the back so that it follows the loop. */
  function Dedup(items: seq<string>, key: string -> string): (r: seq<string>)
    ensures forall x :: x in r ==> x != ""
  {
    if items == [] then []
    else
      var prev := Dedup(items[..|items| - 1], key);
      var k := key(items[|items| - 1]);
      if k == "" || k in prev then prev else prev + [k]
  }

  /** `_dedup_keep_order`: one pass with a set of the keys already kept. */
  method DedupKeepOrder(items: seq<string>) returns (out: seq<string>)
    ensures out == Dedup(items, PyStrip)
  {
    var seen: set<string> := {};
    out := [];
    for k := 0 to |items|
      invariant out == Dedup(items[..k], PyStrip)
      invariant forall x :: x in seen <==> x in out
    {
      assert items[..k + 1][..k] == items[..k];
      var key := PyStrip(items[k]);
      if key == "" || key in seen {
        continue;
      }
      seen := seen + {key};
      out := out + [key];
    }
    assert items[..|items|] == items;
  }

  /** The output holds exactly the non-blank keys of the input. */
  lemma {:induction false} DedupMembers(items: seq<string>, key: string -> string)
    ensures forall x :: x in Dedup(items, key) <==> x != "" && exists i :: 0 <= i < |items| && key(items[i]) == x
  {
    if items != [] {
      var n := |items| - 1;
      var p := items[..n];
      DedupMembers(p, key);
      forall x
        ensures x in Dedup(items, key) <==> x != "" && exists i :: 0 <= i < |items| && key(items[i]) == x
      {
        if x != "" && (exists i :: 0 <= i < |items| && key(items[i]) == x) {
          var i :| 0 <= i < |items| && key(items[i]) == x;
          if i < n {
            assert key(p[i]) == x;
          }
        }
        if x in Dedup(p, key) {
          var i :| 0 <= i < |p| && key(p[i]) == x;
          assert items[i] == p[i];
        }
      }
    }
  }

  /** No key is kept twice. */
  lemma {:induction false} DedupDistinct(items: seq<string>, key: string -> string)
    ensures forall a, b :: 0 <= a < b < |Dedup(items, key)| ==> Dedup(items, key)[a] != Dedup(items, key)[b]
  {
    if items != [] {
      DedupDistinct(items[..|items| - 1], key);
    }
  }

  /** The output is no longer than the input. */
  lemma {:induction false} DedupShorter(items: seq<string>, key: string -> string)
    ensures |Dedup(items, key)| <= |items|
  {
    if items != [] {
      DedupShorter(items[..|items| - 1], key);
    }
  }

  /** Whether position `i` holds the first occurrence of a non-blank key. */
  predicate FirstOccurrence(items: seq<string>, key: string -> string, i: nat)
    requires i < |items|
  {
    key(items[i]) != "" && forall j :: 0 <= j < i ==> key(items[j]) != key(items[i])
  }

  /** The keys at their first occurrences, in input order. */
  function Firsts(items: seq<string>, key: string -> string): seq<string> {
    if items == [] then []
    else
      var n := |items| - 1;
      Firsts(items[..n], key) + (if FirstOccurrence(items, key, n) then [key(items[n])] else [])
  }

  /** The output is exactly the first occurrences, in input order. */
  lemma {:induction false} DedupKeepsFirstOccurrences(items: seq<string>, key: string -> string)
    ensures Dedup(items, key) == Firsts(items, key)
  {
    if items != [] {
      var n := |items| - 1;
      var p := items[..n];
      var k := key(items[n]);
      DedupKeepsFirstOccurrences(p, key);
      var prev := Dedup(p, key);
      assert Dedup(items, key) == if k == "" || k in prev then prev else prev + [k];
      assert Firsts(items, key) == prev + if FirstOccurrence(items, key, n) then [k] else [];
      DedupMembers(p, key);
      if k != "" && k in prev {
        var i :| 0 <= i < |p| && key(p[i]) == k;
        assert items[i] == p[i];
        assert !FirstOccurrence(items, key, n);
      }
      if k != "" && !FirstOccurrence(items, key, n) {
        var j :| 0 <= j < n && key(items[j]) == k;
        assert p[j] == items[j];
        assert k in prev;
      }
    }
  }

  /** A list of distinct, non-blank texts that are their own keys is left as
      it is. */
  lemma {:induction false} DedupFixpoint(xs: seq<string>, key: string -> string)
    requires forall a, b :: 0 <= a < b < |xs| ==> xs[a] != xs[b]
    requires forall a :: 0 <= a < |xs| ==> xs[a] != "" && key(xs[a]) == xs[a]
    ensures Dedup(xs, key) == xs
  {
    if xs != [] {
      var n := |xs| - 1;
      DedupFixpoint(xs[..n], key);
      assert xs[n] !in xs[..n];
      assert xs[..n] + [xs[n]] == xs;
    }
  }

  /** Every kept text is non-blank and already stripped. */
  lemma DedupStripped(items: seq<string>)
    ensures forall x :: x in Dedup(items, PyStrip) ==> x != "" && PyStrip(x) == x
  {
    DedupMembers(items, PyStrip);
    forall x | x in Dedup(items, PyStrip) ensures PyStrip(x) == x {
      var i :| 0 <= i < |items| && PyStrip(items[i]) == x;
      StripIdempotent(items[i], IsPySpace);
    }
  }

  /** Deduplicating twice gives what deduplicating once gives. */
  lemma DedupIdempotent(items: seq<string>)
    ensures Dedup(Dedup(items, PyStrip), PyStrip) == Dedup(items, PyStrip)
  {
    var once := Dedup(items, PyStrip);
    DedupDistinct(items, PyStrip);
    DedupStripped(items);
    assert forall a :: 0 <= a < |once| ==> once[a] in once;
    DedupFixpoint(once, PyStrip);
  }

  // ------------------------------------------------------------ retrieval

  /** The scope filter of `_retrieve_knowledge`: for each scope parameter
      given, the chunk's column equals it or is null (a global rule). */
  predicate InRetrievalScope(c: KnowledgeChunk, supplierId: Option<string>, region: Option<string>, docType: Option<string>)
    ensures supplierId.None? && region.None? && docType.None? ==> InRetrievalScope(c, supplierId, region, docType)
    ensures c.supplierId.None? && c.region.None? && c.docType.None? ==> InRetrievalScope(c, supplierId, region, docType)
  {
    && (supplierId.None? || c.supplierId == supplierId || c.supplierId.None?)
    && (region.None? || c.region == region || c.region.None?)
    && (docType.None? || c.docType == docType || c.docType.None?)
  }

  /** A chunk the ingest route would treat as a duplicate of a request is
      retrieved for the request's scope. */
  lemma DuplicateIsInRetrievalScope(c: KnowledgeChunk, req: IngestRequest)
    requires IsDuplicate(c, req)
    ensures InRetrievalScope(c, req.supplierId, req.region, req.docType)
  {
  }

  /** The knowledge context put into the prompt: the deduplicated texts one
      per line, or the empty text when none is left. */
  function KnowledgeContext(rows: seq<string>): (ctx: string)
    ensures ctx == "" <==> Dedup(rows, PyStrip) == []
  {
    var kept := Dedup(rows, PyStrip);
    if kept == [] then ""
    else
      DedupStripped(rows);
      assert kept[0] in kept;
      JoinStartsWithFirst(kept, "\n");
      Join(kept, "\n")
  }

  // ------------------------------------------------------ fence stripping

  function LowerAscii(s: string): (r: string)
    ensures |r| == |s|
    ensures forall i :: 0 <= i < |s| ==> r[i] == LowerChar(s[i])
  {
    seq(|s|, i requires 0 <= i < |s| => LowerChar(s[i]))
  }

  /** Whether a text starts with "json" in any letter case. ASCII lower-casing
      decides this exactly: no other character lower-cases to a text that
      starts with 'j', 's', 'o' or 'n'. */
  predicate StartsWithJsonTag(s: string) {
    |s| >= 4 && LowerAscii(s[..4]) == "json"
  }

  /** The fenced branch: backticks stripped from both ends, whitespace
      stripped, then a leading "json" tag and the whitespace after it. */
  function Unfence(c: string): (u: string)
    ensures u == [] || (!IsPySpace(u[0]) && !IsPySpace(u[|u| - 1]))
    ensures |u| <= |c|
  {
    var unfenced := PyStrip(Strip(c, IsBacktick));
    if StartsWithJsonTag(unfenced) then PyStrip(unfenced[4..]) else unfenced
  }

  /** The text `_safe_json_loads` hands to the parser: stripped, and
      unfenced when it opens with three backticks. */
  function FenceStrip(text: string): (cleaned: string)
    ensures cleaned == [] || (!IsPySpace(cleaned[0]) && !IsPySpace(cleaned[|cleaned| - 1]))
    ensures !StartsWith(PyStrip(text), "```") ==> cleaned == PyStrip(text)
    ensures |cleaned| <= |text|
  {
    var c := PyStrip(text);
    if StartsWith(c, "```") then Unfence(c) else c
  }

  /** `_safe_json_loads`: no text means no value; otherwise the parser's
      answer on the cleaned text, `None` when it raises. */
  function SafeJsonLoads(text: string, loads: string -> Option<Json>): (r: Option<Json>)
    ensures text == "" ==> r == None
    ensures text != "" ==> r == loads(FenceStrip(text))
  {
    if text == "" then None else loads(FenceStrip(text))
  }

  /** What may sit inside a fence and be recovered intact: a non-empty text
      whose ends are neither whitespace nor backticks. */
  predicate FenceBody(b: string) {
    b != [] && !IsPySpace(b[0]) && !IsPySpace(b[|b| - 1]) && !IsBacktick(b[0]) && !IsBacktick(b[|b| - 1])
  }

  /** A body in a Markdown code fence with an optional language tag. */
  function Fenced(tag: string, b: string): string {
    "```" + tag + "\n" + b + "\n" + "```"
  }

  /** A fenced text opens with three backticks and ends with one. */
  lemma FencedEnds(tag: string, b: string)
    ensures var f := Fenced(tag, b); |f| > 0 && f[0] == '`' && f[|f| - 1] == '`'
    ensures StartsWith(Fenced(tag, b), "```")
  {
    var f := Fenced(tag, b);
    assert f == "```" + (tag + "\n" + b + "\n" + "```");
    assert f[..3] == "```";
  }

  /** Stripping the backticks leaves what lies between them. */
  lemma FencedInner(tag: string, b: string)
    requires FenceBody(b)
    requires tag == [] || (tag[0] != '`' && tag[0] != '\n')
    ensures Strip(Fenced(tag, b), IsBacktick) == tag + "\n" + b + "\n"
  {
    var inner := tag + "\n" + b + "\n";
    assert Fenced(tag, b) == "```" + inner + "```";
    assert inner[0] != '`' && inner[|inner| - 1] == '\n';
    StripSurrounded("```", inner, "```", IsBacktick);
  }

  /** A fenced text is stripped to what lies between the backticks. */
  lemma FencedStripsToInner(tag: string, b: string)
    requires FenceBody(b)
    requires tag == [] || (tag[0] != '`' && tag[0] != '\n')
    ensures PyStrip(Fenced(tag, b)) == Fenced(tag, b)
    ensures StartsWith(Fenced(tag, b), "```")
    ensures Strip(Fenced(tag, b), IsBacktick) == tag + "\n" + b + "\n"
  {
    FencedEnds(tag, b);
    FencedInner(tag, b);
  }

  /** The two branches of `Unfence`, and `FenceStrip` on a fenced text, one
      step at a time. */
  lemma UnfenceTagged(c: string, u: string, rest: string)
    requires PyStrip(Strip(c, IsBacktick)) == u
    requires StartsWithJsonTag(u) && PyStrip(u[4..]) == rest
    ensures Unfence(c) == rest
  {
  }

  lemma UnfenceUntagged(c: string, u: string)
    requires PyStrip(Strip(c, IsBacktick)) == u && !StartsWithJsonTag(u)
    ensures Unfence(c) == u
  {
  }

  lemma FenceStripOfFenced(c: string)
    requires PyStrip(c) == c && StartsWith(c, "```")
    ensures FenceStrip(c) == Unfence(c)
  {
  }

  /** A fenced text whose inside strips to an untagged body is cleaned to
      that body. */
  lemma FenceStripUntagged(c: string, inner: string, b: string)
    requires PyStrip(c) == c && StartsWith(c, "```")
    requires Strip(c, IsBacktick) == inner && PyStrip(inner) == b && !StartsWithJsonTag(b)
    ensures FenceStrip(c) == b
  {
    UnfenceUntagged(c, b);
    FenceStripOfFenced(c);
  }

  /** The newlines around a fenced body are stripped away. */
  lemma StripNewlineAfter(u: string)
    requires u != [] && !IsPySpace(u[0]) && !IsPySpace(u[|u| - 1])
    ensures PyStrip(u + "\n") == u
  {
    assert u + "\n" == [] + u + "\n";
    StripSurrounded([], u, "\n", IsPySpace);
  }

  lemma StripNewlineBefore(b: string)
    requires b != [] && !IsPySpace(b[0]) && !IsPySpace(b[|b| - 1])
    ensures PyStrip("\n" + b) == b
  {
    assert "\n" + b == "\n" + b + [];
    StripSurrounded("\n", b, [], IsPySpace);
  }

  lemma StripNewlinesAround(b: string)
    requires b != [] && !IsPySpace(b[0]) && !IsPySpace(b[|b| - 1])
    ensures PyStrip("\n" + b + "\n") == b
  {
    StripSurrounded("\n", b, "\n", IsPySpace);
  }

  lemma StripNewlinesAroundEmptyTag(tag: string, b: string)
    requires tag == [] && b != [] && !IsPySpace(b[0]) && !IsPySpace(b[|b| - 1])
    ensures PyStrip(tag + "\n" + b + "\n") == b
  {
    assert tag + "\n" + b + "\n" == "\n" + b + "\n";
    StripNewlinesAround(b);
  }

  /** Inside a "json"-tagged fence: the tag line survives the whitespace
      strip, is recognised, and the body follows it. */
  lemma TagLine(tag: string, b: string)
    requires |tag| == 4 && LowerAscii(tag) == "json"
    requires b != [] && !IsPySpace(b[0]) && !IsPySpace(b[|b| - 1])
    ensures PyStrip(tag + "\n" + b + "\n") == tag + "\n" + b
    ensures StartsWithJsonTag(tag + "\n" + b)
    ensures PyStrip((tag + "\n" + b)[4..]) == b
  {
    TagLineKept(tag, b);
    TagLineDropped(tag, b);
  }

  lemma TagLineKept(tag: string, b: string)
    requires |tag| == 4 && LowerAscii(tag) == "json"
    requires b != [] && !IsPySpace(b[|b| - 1])
    ensures PyStrip(tag + "\n" + b + "\n") == tag + "\n" + b
  {
    var u := tag + "\n" + b;
    assert u[0] == tag[0] && u[|u| - 1] == b[|b| - 1];
    assert LowerChar(tag[0]) == 'j';
    StripNewlineAfter(u);
  }

  lemma TagLineDropped(tag: string, b: string)
    requires |tag| == 4 && LowerAscii(tag) == "json"
    requires b != [] && !IsPySpace(b[0]) && !IsPySpace(b[|b| - 1])
    ensures StartsWithJsonTag(tag + "\n" + b)
    ensures PyStrip((tag + "\n" + b)[4..]) == b
  {
    var u := tag + "\n" + b;
    assert u[..4] == tag;
    assert u[4..] == "\n" + b;
    StripNewlineBefore(b);
  }

  /** Fencing a body as "```json" (any letter case) and stripping the fence
      gives the body back. */
  lemma TaggedFenceRoundTrip(tag: string, b: string)
    requires FenceBody(b) && |tag| == 4 && LowerAscii(tag) == "json"
    ensures FenceStrip(Fenced(tag, b)) == b
  {
    assert LowerChar(tag[0]) == 'j';
    FencedStripsToInner(tag, b);
    TagLine(tag, b);
    UnfenceTagged(Fenced(tag, b), tag + "\n" + b, b);
    FenceStripOfFenced(Fenced(tag, b));
  }

  /** The same for a bare "```" fence (an empty tag), when the body does
      not itself open with a "json" tag. */
  lemma BareFenceRoundTrip(tag: string, b: string)
    requires tag == [] && FenceBody(b) && !StartsWithJsonTag(b)
    ensures FenceStrip(Fenced(tag, b)) == b
  {
    FencedStripsToInner(tag, b);
    StripNewlinesAroundEmptyTag(tag, b);
    FenceStripUntagged(Fenced(tag, b), tag + "\n" + b + "\n", b);
  }

  /** An unfenced body reaches the parser unchanged. */
  lemma UnfencedUnchanged(b: string)
    requires FenceBody(b)
    ensures FenceStrip(b) == b
  {
    assert PyStrip(b) == b;
    assert !StartsWith(b, "```") by {
      if |b| >= 3 {
        assert b[..3][0] == b[0];
      }
    }
  }

  // -------------------------------------------------------- normalisation

  /** The parts of the Python runtime the agent relies on but this model
      does not define: `json.loads` (`None` where it raises), `str` of a
      number, list or dict, and `float` of a string (`None` where it raises). */
  datatype Runtime = Runtime(loads: string -> Option<Json>, repr: Json -> string, parseFloat: string -> Option<JsNum>)

  /** Python's `str(v)` for a parsed JSON value. */
  function PyStr(v: Json, rt: Runtime): string {
    match v
    case JStr(s) => s
    case JNull => "None"
    case JBool(b) => if b then "True" else "False"
    case _ => rt.repr(v)
  }

  /** Python's `float(v)` for a parsed JSON value; `None` where it raises. */
  function PyFloat(v: Json, rt: Runtime): Option<JsNum> {
    match v
    case JNum(n) => Some(n)
    case JBool(b) => Some(Fin(if b then 1.0 else 0.0))
    case JStr(s) => rt.parseFloat(s)
    case _ => None
  }

  /** `a < b` on doubles: false whenever NaN is involved. */
  predicate Less(a: JsNum, b: JsNum) {
    match (a, b)
    case (NaN, _) => false
    case (_, NaN) => false
    case (NegInf, NegInf) => false
    case (NegInf, _) => true
    case (_, NegInf) => false
    case (PosInf, _) => false
    case (Fin(_), PosInf) => true
    case (Fin(x), Fin(y)) => x < y
  }

  /** Python's two-argument `min` and `max`: the first argument unless the
      second compares strictly smaller (larger). */
  function PyMin(a: JsNum, b: JsNum): JsNum {
    if Less(b, a) then b else a
  }

  function PyMax(a: JsNum, b: JsNum): JsNum {
    if Less(a, b) then b else a
  }

  /** `max(0.0, min(1.0, c))`. Because the comparisons with NaN are false,
      a NaN confidence comes out as 1.0. */
  function ClampConfidence(c: JsNum): (r: real)
    ensures 0.0 <= r <= 1.0
    ensures c.Fin? && 0.0 <= c.x <= 1.0 ==> r == c.x
    ensures c.Fin? && c.x < 0.0 ==> r == 0.0
    ensures c.Fin? && c.x > 1.0 ==> r == 1.0
    ensures c == PosInf || c == NaN ==> r == 1.0
    ensures c == NegInf ==> r == 0.0
  {
    var m := PyMax(Fin(0.0), PyMin(Fin(1.0), c));
    if m.Fin? then m.x else assert false; 0.0
  }

  /** The decision word: stripped and upper-cased, anything but the two
      known words read as ESCALATE. */
  function NormalizeDecision(raw: string): (d: string)
    ensures d == ESCALATE || d == AUTO_RESOLVE
    ensures d == AUTO_RESOLVE <==> Upper(PyStrip(raw)) == AUTO_RESOLVE
  {
    var w := Upper(PyStrip(raw));
    if w == ESCALATE || w == AUTO_RESOLVE then w else ESCALATE
  }

  /** Surrounding whitespace and letter case do not matter: a padded word that
      upper-cases to one of the decisions is read as that decision. */
  lemma NormalizeDecisionTolerant(lead: string, w: string, trail: string)
    requires forall i :: 0 <= i < |lead| ==> IsPySpace(lead[i])
    requires forall i :: 0 <= i < |trail| ==> IsPySpace(trail[i])
    requires Upper(w) == ESCALATE || Upper(w) == AUTO_RESOLVE
    ensures NormalizeDecision(lead + w + trail) == Upper(w)
  {
    var u := Upper(w);
    assert u[0] == UpperChar(w[0]) && u[|u| - 1] == UpperChar(w[|w| - 1]);
    assert !IsPySpace(w[0]) && !IsPySpace(w[|w| - 1]);
    StripSurrounded(lead, w, trail, IsPySpace);
  }

  /** The verdict the agent returns when anything raises. */
  function FailureReport(): (r: AgentResult)
    ensures WellFormed(r, LLM_AGENT) && r.recommendation == ESCALATE && r.score == 0.5
  {
    AgentResult(LLM_AGENT, 0.5, ESCALATE, AGENT_FAILED_REASON)
  }

  /** The answer used in place of an unparsable (or empty, or falsy) reply. */
  function FallbackAnswer(): Json {
    JObj(map["decision" := JStr(ESCALATE), "reason" := JStr(PARSE_FAILED_REASON), "confidence" := JNum(Fin(0.5))])
  }

  /** `parsed.get(key, default)`. */
  function Get(fields: map<string, Json>, key: string, default: Json): Json {
    if key in fields then fields[key] else default
  }

  /** The decision read off an answer object; a missing one defaults to
      ESCALATE. */
  function ReadDecision(fields: map<string, Json>, rt: Runtime): (d: string)
    ensures d == ESCALATE || d == AUTO_RESOLVE
    ensures d == AUTO_RESOLVE <==>
      "decision" in fields && Upper(PyStrip(PyStr(fields["decision"], rt))) == AUTO_RESOLVE
  {
    assert |Upper(PyStrip(ESCALATE))| <= |ESCALATE| < |AUTO_RESOLVE|;
    NormalizeDecision(PyStr(Get(fields, "decision", JStr(ESCALATE)), rt))
  }

  /** The confidence read off an answer object: 0.5 when missing or not
      convertible to a float, then clamped. */
  function ReadConfidence(fields: map<string, Json>, rt: Runtime): (c: real)
    ensures 0.0 <= c <= 1.0
    ensures ("confidence" in fields && fields["confidence"].JNum? && fields["confidence"].n.Fin?
      && 0.0 <= fields["confidence"].n.x <= 1.0) ==> c == fields["confidence"].n.x
    ensures "confidence" !in fields ==> c == 0.5
    ensures "confidence" in fields && PyFloat(fields["confidence"], rt).None? ==> c == 0.5
  {
    var converted := PyFloat(Get(fields, "confidence", JNum(Fin(0.5))), rt);
    ClampConfidence(if converted.Some? then converted.value else Fin(0.5))
  }

  /** The reason read off an answer object, stripped: the default sentence
      when the field is missing, the stripped text when it is a string. */
  function ReadReason(fields: map<string, Json>, rt: Runtime): (r: string)
    ensures r == [] || (!IsPySpace(r[0]) && !IsPySpace(r[|r| - 1]))
    ensures "reason" !in fields ==> r == NO_REASON
    ensures "reason" in fields && fields["reason"].JStr? ==> r == PyStrip(fields["reason"].s)
  {
    NoReasonStripped();
    PyStrip(PyStr(Get(fields, "reason", JStr(NO_REASON)), rt))
  }

  /** The default reason has no surrounding whitespace to strip. */
  lemma NoReasonStripped()
    ensures PyStrip(NO_REASON) == NO_REASON
  {
    var r := NO_REASON;
    assert r[0] == 'N' && r[|r| - 1] == 'd';
    PyStripUnchanged(r);
  }

  /** The verdict read off a parsed answer object. */
  function ReadAnswer(fields: map<string, Json>, rt: Runtime): (r: AgentResult)
    ensures WellFormed(r, LLM_AGENT)
  {
    AgentResult(LLM_AGENT, ReadConfidence(fields, rt), ReadDecision(fields, rt), ReadReason(fields, rt))
  }

  /** The outcome of everything before the reply is parsed: the embedding,
      the retrieval and the chat completion either raise, or the completion
      comes back with a (possibly null) message content. */
  datatype LlmCall = CallFailed | Completed(content: Option<string>)

  /** `LlmDecisionAgent.evaluate` from the completion on. */
  function Evaluate(call: LlmCall, rt: Runtime): (r: AgentResult)
    ensures WellFormed(r, LLM_AGENT)
    ensures call.CallFailed? ==> r == FailureReport()
    ensures r.recommendation == AUTO_RESOLVE ==> call.Completed?
  {
    match call
    case CallFailed => FailureReport()
    case Completed(content) =>
      var text := if content.Some? then content.value else "";
      var loaded := SafeJsonLoads(text, rt.loads);
      var parsed := if loaded.Some? && PyTruthy(loaded.value) then loaded.value else FallbackAnswer();
      if parsed.JObj? then ReadAnswer(parsed.fields, rt) else FailureReport()
  }

  /** A text with no whitespace at either end is its own strip. */
  lemma PyStripUnchanged(t: string)
    requires t != [] && !IsPySpace(t[0]) && !IsPySpace(t[|t| - 1])
    ensures PyStrip(t) == t
  {
  }

  lemma FallbackReason(rt: Runtime)
    ensures ReadReason(FallbackAnswer().fields, rt) == PARSE_FAILED_REASON
  {
    var fields := FallbackAnswer().fields;
    var r := PARSE_FAILED_REASON;
    assert Get(fields, "reason", JStr(NO_REASON)) == JStr(r);
    assert PyStr(JStr(r), rt) == r;
    assert r[0] == 'L' && r[|r| - 1] == '.';
    PyStripUnchanged(r);
  }

  /** The fallback answer reads as ESCALATE at 0.5 with its fixed reason. */
  lemma FallbackAnswerRead(rt: Runtime)
    ensures ReadAnswer(FallbackAnswer().fields, rt) == AgentResult(LLM_AGENT, 0.5, ESCALATE, PARSE_FAILED_REASON)
  {
    FallbackDecision(rt);
    FallbackConfidence(rt);
    FallbackReason(rt);
  }

  lemma FallbackDecision(rt: Runtime)
    ensures ReadDecision(FallbackAnswer().fields, rt) == ESCALATE
  {
    var fields := FallbackAnswer().fields;
    var raw := PyStr(Get(fields, "decision", JStr(ESCALATE)), rt);
    assert raw == ESCALATE;
    ShortWordEscalates(raw);
  }

  /** A word shorter than AUTO_RESOLVE is normalised to ESCALATE. */
  lemma ShortWordEscalates(raw: string)
    requires |raw| < |AUTO_RESOLVE|
    ensures NormalizeDecision(raw) == ESCALATE
  {
    assert |Upper(PyStrip(raw))| <= |raw|;
  }

  lemma FallbackConfidence(rt: Runtime)
    ensures ReadConfidence(FallbackAnswer().fields, rt) == 0.5
  {
    var fields := FallbackAnswer().fields;
    assert "confidence" in fields && fields["confidence"] == JNum(Fin(0.5));
  }

  /** A reply that does not parse, or parses to a falsy value, gives the
      parse-failure verdict: ESCALATE at 0.5 with the fixed reason. */
  lemma UnparsableReplyEscalates(content: Option<string>, rt: Runtime)
    requires var text := if content.Some? then content.value else "";
      var loaded := SafeJsonLoads(text, rt.loads);
      loaded.None? || !PyTruthy(loaded.value)
    ensures Evaluate(Completed(content), rt) == AgentResult(LLM_AGENT, 0.5, ESCALATE, PARSE_FAILED_REASON)
  {
    FallbackAnswerRead(rt);
  }

  /** An empty or null reply takes the parse-failure path whatever the parser. */
  lemma EmptyReplyEscalates(rt: Runtime)
    ensures Evaluate(Completed(None), rt) == AgentResult(LLM_AGENT, 0.5, ESCALATE, PARSE_FAILED_REASON)
    ensures Evaluate(Completed(Some("")), rt) == AgentResult(LLM_AGENT, 0.5, ESCALATE, PARSE_FAILED_REASON)
  {
    UnparsableReplyEscalates(None, rt);
    UnparsableReplyEscalates(Some(""), rt);
  }

  /** A reply that parses to a truthy value other than an object (a list, a
      number, a string) makes `.get` raise, which gives the failure verdict. */
  lemma NonObjectReplyFails(content: string, rt: Runtime)
    requires var loaded := SafeJsonLoads(content, rt.loads);
      loaded.Some? && PyTruthy(loaded.value) && !loaded.value.JObj?
    ensures Evaluate(Completed(Some(content)), rt) == FailureReport()
  {
  }

  /** A well-formed answer in a "```json" fence is read as the model meant
      it: its confidence becomes the score, and its decision word decides. */
  lemma FencedAnswerAccepted(tag: string, b: string, decision: Json, confidence: real, rt: Runtime)
    requires |tag| == 4 && LowerAscii(tag) == "json"
    requires FenceBody(b) && 0.0 <= confidence <= 1.0
    requires rt.loads(b) == Some(JObj(map["decision" := decision, "confidence" := JNum(Fin(confidence))]))
    ensures Evaluate(Completed(Some(Fenced(tag, b))), rt).score == confidence
    ensures Evaluate(Completed(Some(Fenced(tag, b))), rt).recommendation == AUTO_RESOLVE <==>
      Upper(PyStrip(PyStr(decision, rt))) == AUTO_RESOLVE
  {
    TaggedFenceRoundTrip(tag, b);
    var text := Fenced(tag, b);
    FencedEnds(tag, b);
    var fields := map["decision" := decision, "confidence" := JNum(Fin(confidence))];
    assert SafeJsonLoads(text, rt.loads) == Some(JObj(fields));
    assert "decision" in fields;
    ObjectReplyRead(text, fields, rt);
    TwoFieldAnswer(decision, confidence, rt);
  }

  /** A reply that parses to a non-empty object is read field by field. */
  lemma ObjectReplyRead(content: string, fields: map<string, Json>, rt: Runtime)
    requires SafeJsonLoads(content, rt.loads) == Some(JObj(fields)) && |fields| > 0
    ensures Evaluate(Completed(Some(content)), rt) == ReadAnswer(fields, rt)
  {
    var loaded := SafeJsonLoads(content, rt.loads);
    assert PyTruthy(loaded.value);
  }

  /** An answer with a decision and an in-range confidence is read as it
      stands. */
  lemma TwoFieldAnswer(decision: Json, confidence: real, rt: Runtime)
    requires 0.0 <= confidence <= 1.0
    ensures var fields := map["decision" := decision, "confidence" := JNum(Fin(confidence))];
      && ReadAnswer(fields, rt).score == confidence
      && (ReadAnswer(fields, rt).recommendation == AUTO_RESOLVE <==> Upper(PyStrip(PyStr(decision, rt))) == AUTO_RESOLVE)
  {
  }
}
