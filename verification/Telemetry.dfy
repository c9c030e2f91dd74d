/** Governance records: what one decision leaves on its span
    (agentcontrol/core/otel.py, agentcontrol/core/semconv.py). */
module Telemetry {
  import opened Text
  import opened Json
  import opened Domain

  /** One record. `error` is the error type on the span. */
  datatype Record = Record(
    intent: Intent,
    result: ControlResult,
    state: Option<ReviewState>,
    deadline: Option<string>,
    replay: bool,
    error: Option<string>)

  const DENIED := "agentcontrol.denied"
  const OUTAGE := "agentcontrol.policy_unavailable"
  const TIMEOUT := "agentcontrol.review_timeout"
  const REJECTED := "agentcontrol.review_rejected"

  function DecisionError(r: ControlResult, state: Option<ReviewState>): Option<string> {
    if state == Some(TimedOut) then Some(TIMEOUT)
    else if state == Some(Rejected) then Some(REJECTED)
    else if r.unavailable && r.verdict == Deny then Some(OUTAGE)
    else if r.verdict == Deny then Some(DENIED)
    else None
  }

  /** The record of a decision that does not run the tool. */
  function DecisionRecord(i: Intent, r: ControlResult, state: Option<ReviewState>, deadline: Option<string>,
                          replay: bool): Record {
    Record(i, r, state, deadline, replay, DecisionError(r, state))
  }

  /** The record a decision and its execution share; a handler exception leaves its type. */
  function ExecutionRecord(i: Intent, r: ControlResult, state: Option<ReviewState>, deadline: Option<string>,
                           replay: bool, failure: Option<string>): Record {
    Record(i, r, state, deadline, replay, failure)
  }

  lemma ErrorTypesDistinct()
    ensures |DENIED| == 19 && |OUTAGE| == 31 && |TIMEOUT| == 27 && |REJECTED| == 28
  {
  }

  // ---------------------------------------------------------------- span attributes

  const EVIDENCE_PREFIX := "agentcontrol.evidence."

  function EvidenceKey(collector: string, signal: string): string {
    EVIDENCE_PREFIX + collector + "." + signal
  }

  /** `json.dumps(value)`. Floats and containers render as fixed text. */
  function JsonText(j: Json): string {
    match j
    case JNull => "null"
    case JBool(b) => if b then "true" else "false"
    case JInt(i) => IntText(i)
    case JReal(_) => "<float>"
    case JStr(s) => "\"" + s + "\""
    case JArr(_) => "<list>"
    case JObj(_) => "<dict>"
  }

  /** Scalars stay as they are; the rest is rendered as text. */
  function AttributeValue(j: Json): Json {
    if j.JNull? || j.JArr? || j.JObj? then JStr(JsonText(j)) else j
  }

  function EvidenceAttributes(evidence: seq<Evidence>): map<string, Json> {
    if evidence == [] then map[]
    else
      var e := evidence[|evidence| - 1];
      EvidenceAttributes(evidence[..|evidence| - 1])[EvidenceKey(e.collector, e.signal) := AttributeValue(e.value)]
  }

  function StateText(s: ReviewState): string {
    match s
    case Pending => "pending"
    case Approved => "approved"
    case Rejected => "rejected"
    case TimedOut => "timed_out"
  }

  /** The part of the span a key belongs to: the letter after the namespace, 'g' for keys of the
      shared conventions, '!' for the short ones. */
  function Part(k: string): char {
    if |k| <= 13 then '!' else if k[0] == 'a' then k[13] else 'g'
  }

  /** A key of the record's own attributes: evidence keys are the part marked 'e'. */
  predicate OwnKey(k: string) {
    Part(k) != 'e'
  }

  predicate OwnKeys(m: map<string, Json>) {
    forall k :: k in m ==> OwnKey(k)
  }

  predicate KeysIn(m: map<string, Json>, parts: set<char>) {
    forall k :: k in m ==> Part(k) in parts
  }

  function Optionally(m: map<string, Json>, present: bool, key: string, value: Json): map<string, Json> {
    if present then m[key := value] else m
  }

  /** What a deployment puts on its spans. */
  datatype SpanConfig = SpanConfig(enforcing: bool, arguments: bool, results: bool)

  /** What one call brings to its span besides the decision. */
  datatype SpanExtras = SpanExtras(description: Option<string>, latencyMs: Option<int>, output: Option<Json>)

  /** The call's own attributes: those of the shared conventions, and its context. */
  function ConventionAttributes(i: Intent, cfg: SpanConfig, description: Option<string>): (out: map<string, Json>)
    ensures KeysIn(out, {'g'})
  {
    var m0 := map[
      "gen_ai.operation.name" := JStr("execute_tool"),
      "gen_ai.tool.name" := JStr(i.tool),
      "gen_ai.agent.id" := JStr(i.agent)];
    var m1 := Optionally(m0, i.toolCallId.GetOr("") != "", "gen_ai.tool.call.id", OptText(i.toolCallId));
    var m2 := Optionally(m1, i.toolType.GetOr("") != "", "gen_ai.tool.type", OptText(i.toolType));
    var m3 := Optionally(m2, description.GetOr("") != "", "gen_ai.tool.description", OptText(description));
    var m4 := Optionally(m3, i.threadId.GetOr("") != "", "gen_ai.conversation.id", OptText(i.threadId));
    Optionally(m4, cfg.arguments, "gen_ai.tool.call.arguments", JStr(JsonText(i.arguments)))
  }

  function ContextAttributes(i: Intent, cfg: SpanConfig): (out: map<string, Json>)
    ensures KeysIn(out, {'c', 'a'})
  {
    var m0 := map[
      "agentcontrol.context.trust" := JStr(TrustText(i.trust)),
      "agentcontrol.capability.enforcement" := JBool(cfg.enforcing)];
    var m1 := Optionally(m0, i.source.GetOr("") != "", "agentcontrol.context.source", OptText(i.source));
    var m2 := Optionally(m1, i.resource.GetOr("") != "", "agentcontrol.action.resource", OptText(i.resource));
    Optionally(m2, Orphaned(i), "agentcontrol.correlation.orphan", JBool(true))
  }

  function BaseAttributes(i: Intent, cfg: SpanConfig, description: Option<string>): (out: map<string, Json>)
    ensures KeysIn(out, {'g', 'c', 'a'})
  {
    ConventionAttributes(i, cfg, description) + ContextAttributes(i, cfg)
  }

  function DecisionAttributes(r: ControlResult, latencyMs: Option<int>): (out: map<string, Json>)
    ensures KeysIn(out, {'p'})
  {
    var m0 := map[
      "agentcontrol.policy.decision" := JStr(VerdictText(r.verdict)),
      "agentcontrol.policy.provider" := JStr(r.provider),
      "agentcontrol.policy.reason" := JStr(r.reason),
      "agentcontrol.policy.unavailable" := JBool(r.unavailable)];
    var m1 := Optionally(m0, r.policyId.GetOr("") != "", "agentcontrol.policy.id", OptText(r.policyId));
    var m2 := Optionally(m1, Truthy(r.decisionId), "agentcontrol.policy.decision_id", r.decisionId);
    var m3 := Optionally(m2, r.failMode.Some?, "agentcontrol.policy.fail_mode",
                         JStr(if r.failMode == Some(Open) then "open" else "closed"));
    Optionally(m3, latencyMs.Some?, "agentcontrol.policy.latency_ms", JInt(latencyMs.GetOr(0)))
  }

  function ReviewAttributes(rec: Record): (out: map<string, Json>)
    ensures KeysIn(out, {'r'})
  {
    if rec.state.None? then map[]
    else
      var m0 := map[
        "agentcontrol.review.state" := JStr(StateText(rec.state.value)),
        "agentcontrol.review.hold_id" := JStr(HoldId(rec.intent))];
      var m1 := Optionally(m0, rec.deadline.Some?, "agentcontrol.review.deadline", OptText(rec.deadline));
      Optionally(m1, rec.replay, "agentcontrol.review.replay", JBool(true))
  }

  /** What is set while the span is open: the tool's output, and the error type. */
  function LateAttributes(output: Option<Json>, error: Option<string>): (out: map<string, Json>)
    ensures out.Keys <= {"gen_ai.tool.call.result", "error.type"}
    ensures KeysIn(out, {'g', '!'})
  {
    var m := Optionally(map[], output.Some?, "gen_ai.tool.call.result", JStr(JsonText(output.GetOr(JNull))));
    Optionally(m, error.Some?, "error.type", OptText(error))
  }

  /** The tool's output, where it is recorded: on a span whose tool ran without an exception. */
  function Shown(rec: Record, cfg: SpanConfig, output: Option<Json>): Option<Json> {
    if cfg.results && rec.error.None? then output else None
  }

  /** What the span holds before evidence is added, and what is added after. */
  function EarlyAttributes(rec: Record, cfg: SpanConfig, extras: SpanExtras): (out: map<string, Json>)
    ensures OwnKeys(out)
  {
    BaseAttributes(rec.intent, cfg, extras.description) + DecisionAttributes(rec.result, extras.latencyMs)
  }

  function FinalAttributes(rec: Record, cfg: SpanConfig, extras: SpanExtras): (out: map<string, Json>)
    ensures OwnKeys(out)
  {
    ReviewAttributes(rec) + LateAttributes(Shown(rec, cfg, extras.output), rec.error)
  }

  /** The attributes of a record's span, in the order they are written. */
  function SpanAttributes(rec: Record, cfg: SpanConfig, extras: SpanExtras): map<string, Json> {
    EarlyAttributes(rec, cfg, extras) + EvidenceAttributes(rec.result.evidence) + FinalAttributes(rec, cfg, extras)
  }

  /** The evidence block, written in the order the evidence was collected. */
  method FillEvidence(evidence: seq<Evidence>) returns (attributes: map<string, Json>)
    ensures attributes == EvidenceAttributes(evidence)
  {
    attributes := map[];
    for k := 0 to |evidence|
      invariant attributes == EvidenceAttributes(evidence[..k])
    {
      assert evidence[..k + 1][..k] == evidence[..k];
      var e := evidence[k];
      attributes := attributes[EvidenceKey(e.collector, e.signal) := AttributeValue(e.value)];
    }
    assert evidence[..|evidence|] == evidence;
  }

  /** What the open span gains: the tool's output, then the error type. */
  method CloseSpan(span: map<string, Json>, output: Option<Json>, error: Option<string>)
    returns (attributes: map<string, Json>)
    ensures attributes == span + LateAttributes(output, error)
  {
    attributes := span;
    if output.Some? {
      attributes := attributes["gen_ai.tool.call.result" := JStr(JsonText(output.value))];
    }
    if error.Some? {
      attributes := attributes["error.type" := JStr(error.value)];
    }
  }

  lemma Regrouped(a: map<string, Json>, b: map<string, Json>, c: map<string, Json>)
    ensures (a + b) + c == a + (b + c)
  {
  }

  /** Fills the attributes of a span block by block: the call's own, the decision's, the
      evidence, the review's, then the output and the error type. */
  method BuildSpanAttributes(rec: Record, cfg: SpanConfig, extras: SpanExtras) returns (attributes: map<string, Json>)
    ensures attributes == SpanAttributes(rec, cfg, extras)
  {
    attributes := EarlyAttributes(rec, cfg, extras);
    var evidence := FillEvidence(rec.result.evidence);
    attributes := attributes + evidence;
    Regrouped(attributes, ReviewAttributes(rec), LateAttributes(Shown(rec, cfg, extras.output), rec.error));
    attributes := CloseSpan(attributes + ReviewAttributes(rec), Shown(rec, cfg, extras.output), rec.error);
  }

  // ---------------------------------------------------------------- the two evidence views

  lemma EvidenceKeyIsForeign(collector: string, signal: string)
    ensures !OwnKey(EvidenceKey(collector, signal))
  {
    assert EvidenceKey(collector, signal)[..22] == EVIDENCE_PREFIX;
    assert EVIDENCE_PREFIX[0] == 'a' && EVIDENCE_PREFIX[13] == 'e';
    assert EvidenceKey(collector, signal)[0] == EVIDENCE_PREFIX[0];
    assert EvidenceKey(collector, signal)[13] == EVIDENCE_PREFIX[13];
  }

  lemma {:induction false} EvidenceKeysForeign(evidence: seq<Evidence>, k: string)
    ensures k in EvidenceAttributes(evidence) ==> !OwnKey(k)
  {
    if evidence != [] {
      var e := evidence[|evidence| - 1];
      EvidenceKeyIsForeign(e.collector, e.signal);
      EvidenceKeysForeign(evidence[..|evidence| - 1], k);
    }
  }

  lemma OwnUnevidenced(rec: Record, cfg: SpanConfig, extras: SpanExtras)
    ensures var bare := rec.(result := rec.result.(evidence := []));
            && EarlyAttributes(bare, cfg, extras) == EarlyAttributes(rec, cfg, extras)
            && FinalAttributes(bare, cfg, extras) == FinalAttributes(rec, cfg, extras)
  {
    var bare := rec.(result := rec.result.(evidence := []));
    assert DecisionAttributes(bare.result, extras.latencyMs) == DecisionAttributes(rec.result, extras.latencyMs);
    assert ReviewAttributes(bare) == ReviewAttributes(rec);
  }

  lemma LayersApart(base: map<string, Json>, evidence: map<string, Json>, late: map<string, Json>, k: string)
    requires OwnKeys(base) && OwnKeys(late) && (k in evidence ==> !OwnKey(k))
    ensures var span, bare := base + evidence + late, base + map[] + late;
            && (k in evidence ==> k in span && span[k] == evidence[k] && k !in bare)
            && (k !in evidence ==> (k in span <==> k in bare) && (k in span ==> span[k] == bare[k]))
  {
  }

  /** Evidence and the record's own attributes never meet: on an own key the span reads as if
      there were no evidence, and every evidence attribute reads as evidence wrote it. */
  lemma EvidenceKeptApart(rec: Record, cfg: SpanConfig, extras: SpanExtras, k: string)
    ensures var span, bare := SpanAttributes(rec, cfg, extras),
                              SpanAttributes(rec.(result := rec.result.(evidence := [])), cfg, extras);
            var evidence := EvidenceAttributes(rec.result.evidence);
            && (k in evidence ==> k in span && span[k] == evidence[k] && k !in bare)
            && (k !in evidence ==> (k in span <==> k in bare) && (k in span ==> span[k] == bare[k]))
  {
    EvidenceKeysForeign(rec.result.evidence, k);
    OwnUnevidenced(rec, cfg, extras);
    LayersApart(EarlyAttributes(rec, cfg, extras), EvidenceAttributes(rec.result.evidence),
                FinalAttributes(rec, cfg, extras), k);
  }

  /** No name extends another by a dot. */
  predicate DotApart(names: set<string>) {
    forall c, c' :: c in names && c' in names ==> !(c + "." <= c')
  }

  function Collectors(evidence: seq<Evidence>): set<string> {
    set k | 0 <= k < |evidence| :: evidence[k].collector
  }

  lemma KeyParts(c: string, s: string)
    ensures EvidenceKey(c, s)[22..] == c + "." + s
  {
    assert EvidenceKey(c, s) == EVIDENCE_PREFIX + (c + "." + s);
  }

  /** Two pairs share a key only if they are the same pair or one collector extends the other. */
  lemma SameKey(c: string, s: string, c': string, s': string)
    requires EvidenceKey(c, s) == EvidenceKey(c', s')
    ensures (c == c' && s == s') || c + "." <= c' || c' + "." <= c
  {
    KeyParts(c, s);
    KeyParts(c', s');
    var k := c + "." + s;
    assert k == c' + "." + s';
    if |c| < |c'| {
      assert c' == k[..|c'|];
      assert (c + ".") == c'[..|c| + 1];
    } else if |c'| < |c| {
      assert c == k[..|c|];
      assert (c' + ".") == c[..|c'| + 1];
    } else {
      assert k[..|c|] == c && k[..|c'|] == c';
      assert k[|c| + 1..] == s && k[|c'| + 1..] == s';
    }
  }

  /** A value shows as itself, or as text if it is null, a list or an object. */
  predicate ShowsAs(shown: Json, v: Json) {
    if v.JBool? || v.JInt? || v.JReal? || v.JStr? then shown == v
    else shown.JStr? && (v.JNull? ==> shown == JStr("null"))
  }

  /** The evidence on a span shows one signal as policy read it, under the collector's and the
      signal's name: present in both with the same last value, or in neither. */
  predicate Agrees(evidence: seq<Evidence>, c: string, s: string) {
    var shown, key := EvidenceAttributes(evidence), "agentcontrol.evidence." + c + "." + s;
    match LastValue(evidence, c, s)
    case None => key !in shown
    case Some(v) => key in shown && ShowsAs(shown[key], v)
  }

  lemma {:induction false} ViewsAgree(evidence: seq<Evidence>, names: set<string>, c: string, s: string)
    requires DotApart(names) && Collectors(evidence) <= names && c in names
    ensures Agrees(evidence, c, s)
  {
    if evidence != [] {
      var init, e := evidence[..|evidence| - 1], evidence[|evidence| - 1];
      assert e.collector in Collectors(evidence);
      forall n | n in Collectors(init) ensures n in Collectors(evidence) {
        var k :| 0 <= k < |init| && init[k].collector == n;
        assert evidence[k].collector == n;
      }
      ViewsAgree(init, names, c, s);
      if EvidenceKey(e.collector, e.signal) == EvidenceKey(c, s) {
        SameKey(e.collector, e.signal, c, s);
      }
    }
  }

  /** The grouped policy input and the flattened span attributes agree, for all evidence from
      a set of collectors, exactly when no collector's name extends another's by a dot. */
  lemma ViewsAgreeExactly(names: set<string>)
    ensures (forall evidence, c, s :: Collectors(evidence) <= names && c in names ==> Agrees(evidence, c, s))
            <==> DotApart(names)
  {
    if DotApart(names) {
      forall evidence, c, s | Collectors(evidence) <= names && c in names
        ensures Agrees(evidence, c, s)
      {
        ViewsAgree(evidence, names, c, s);
      }
    } else {
      var c, c' :| c in names && c' in names && c + "." <= c';
      var rest := c'[|c| + 1..];
      var evidence := [Evidence(c', "s", JNull)];
      assert c' == c + "." + rest;
      assert EvidenceKey(c', "s") == EvidenceKey(c, rest + ".s") by {
        assert c' + "." + "s" == c + "." + (rest + ".s");
        assert EvidenceKey(c', "s") == EVIDENCE_PREFIX + (c' + "." + "s");
        assert EvidenceKey(c, rest + ".s") == EVIDENCE_PREFIX + (c + "." + (rest + ".s"));
      }
      assert Collectors(evidence) == {c'} by {
        assert evidence[0].collector == c';
      }
      assert evidence[..0] == [];
      assert LastValue(evidence[..0], c, rest + ".s") == None;
      assert |c| < |c'|;
      assert LastValue(evidence, c, rest + ".s") == None;
      assert EvidenceKey(c', "s") in EvidenceAttributes(evidence);
      assert !Agrees(evidence, c, rest + ".s");
    }
  }

  lemma DotInside(c: string, c': string)
    requires c + "." <= c'
    ensures '.' in c'
  {
    assert c'[|c|] == '.';
  }

  /** Dot-free collector names are always apart. */
  lemma DotFreeApart(names: set<string>)
    requires forall c :: c in names ==> '.' !in c
    ensures DotApart(names)
  {
    forall c, c' | c in names && c' in names
      ensures !(c + "." <= c')
    {
      if c + "." <= c' {
        DotInside(c, c');
      }
    }
  }
}
