/** What a reader of a finished span finds under each key, word by word, and the cause of a decision
    read from its span alone. */
module Spans {
  import opened Text
  import opened Json
  import opened Domain
  import opened Telemetry

  type Span = map<string, Json>

  // ---------------------------------------------------------------- one block holds each key

  /** The two maps read alike on a part of the span, but for the key of the tool's output. */
  ghost predicate AlikeOn(a: Span, b: Span, part: char) {
    forall k :: Part(k) == part && k != "gen_ai.tool.call.result" ==> Look(a, k) == Look(b, k)
  }

  /** Six blocks, each with its own part, laid over one another. */
  function Stacked(convention: Span, context: Span, decision: Span, evidence: Span, review: Span, late: Span): Span {
    convention + context + decision + evidence + (review + late)
  }

  lemma StackedAt(convention: Span, context: Span, decision: Span, evidence: Span, review: Span, late: Span, k: string)
    requires KeysIn(convention, {'g'}) && KeysIn(context, {'c', 'a'}) && KeysIn(decision, {'p'})
    requires KeysIn(evidence, {'e'}) && KeysIn(review, {'r'}) && k !in late
    ensures var found := Look(Stacked(convention, context, decision, evidence, review, late), k);
            && (Part(k) == 'g' ==> found == Look(convention, k))
            && (Part(k) in {'c', 'a'} ==> found == Look(context, k))
            && (Part(k) == 'p' ==> found == Look(decision, k))
            && (Part(k) == 'r' ==> found == Look(review, k))
            && (Part(k) == '!' ==> found == None)
  {
  }

  lemma StackedParts(convention: Span, context: Span, decision: Span, evidence: Span, review: Span, late: Span)
    requires KeysIn(convention, {'g'}) && KeysIn(context, {'c', 'a'}) && KeysIn(decision, {'p'})
    requires KeysIn(evidence, {'e'}) && KeysIn(review, {'r'})
    requires late.Keys <= {"gen_ai.tool.call.result", "error.type"}
    ensures var span := Stacked(convention, context, decision, evidence, review, late);
            && AlikeOn(span, convention, 'g') && AlikeOn(span, context, 'c') && AlikeOn(span, context, 'a')
            && AlikeOn(span, decision, 'p') && AlikeOn(span, review, 'r')
            && Look(span, "error.type") == Look(late, "error.type")
  {
    assert Part("error.type") == '!' && Part("gen_ai.tool.call.result") == 'g';
    var span := Stacked(convention, context, decision, evidence, review, late);
    forall k | k !in late
      ensures Part(k) == 'g' ==> Look(span, k) == Look(convention, k)
      ensures Part(k) in {'c', 'a'} ==> Look(span, k) == Look(context, k)
      ensures Part(k) == 'p' ==> Look(span, k) == Look(decision, k)
      ensures Part(k) == 'r' ==> Look(span, k) == Look(review, k)
    {
      StackedAt(convention, context, decision, evidence, review, late, k);
    }
    if "error.type" !in late {
      StackedAt(convention, context, decision, evidence, review, late, "error.type");
    }
  }

  lemma EvidencePart(evidence: seq<Evidence>)
    ensures KeysIn(EvidenceAttributes(evidence), {'e'})
  {
    forall k | k in EvidenceAttributes(evidence) ensures Part(k) == 'e' {
      EvidenceKeysForeign(evidence, k);
    }
  }

  lemma SpanStacks(rec: Record, cfg: SpanConfig, extras: SpanExtras)
    ensures SpanAttributes(rec, cfg, extras) ==
            Stacked(ConventionAttributes(rec.intent, cfg, extras.description), ContextAttributes(rec.intent, cfg),
                    DecisionAttributes(rec.result, extras.latencyMs), EvidenceAttributes(rec.result.evidence),
                    ReviewAttributes(rec), LateAttributes(Shown(rec, cfg, extras.output), rec.error))
  {
  }

  /** Every part of a span reads as the block that writes it. */
  lemma SpanParts(rec: Record, cfg: SpanConfig, extras: SpanExtras)
    ensures var span := SpanAttributes(rec, cfg, extras);
            && AlikeOn(span, ConventionAttributes(rec.intent, cfg, extras.description), 'g')
            && AlikeOn(span, ContextAttributes(rec.intent, cfg), 'c')
            && AlikeOn(span, ContextAttributes(rec.intent, cfg), 'a')
            && AlikeOn(span, DecisionAttributes(rec.result, extras.latencyMs), 'p')
            && AlikeOn(span, ReviewAttributes(rec), 'r')
            && Look(span, "error.type") ==
               Look(LateAttributes(Shown(rec, cfg, extras.output), rec.error), "error.type")
  {
    EvidencePart(rec.result.evidence);
    SpanStacks(rec, cfg, extras);
    StackedParts(ConventionAttributes(rec.intent, cfg, extras.description), ContextAttributes(rec.intent, cfg),
                 DecisionAttributes(rec.result, extras.latencyMs), EvidenceAttributes(rec.result.evidence),
                 ReviewAttributes(rec), LateAttributes(Shown(rec, cfg, extras.output), rec.error));
  }

  // ---------------------------------------------------------------- the decision

  /** Text that is present exactly when there is some. */
  predicate SaysText(span: Span, k: string, text: Option<string>) {
    Look(span, k) == if text.Some? && text.value != "" then Some(JStr(text.value)) else None
  }

  predicate SaysWord(span: Span, k: string, word: string) {
    Look(span, k) == Some(JStr(word))
  }

  /** A mark that is present exactly when it should be. */
  predicate SaysMark(span: Span, k: string, marked: bool) {
    Look(span, k) == if marked then Some(JBool(true)) else None
  }

  /** What the span says of the decision. */
  predicate DecisionOn(span: Span, r: ControlResult) {
    && (r.verdict == Allow ==> SaysWord(span, "agentcontrol.policy.decision", "allow"))
    && (r.verdict == Deny ==> SaysWord(span, "agentcontrol.policy.decision", "deny"))
    && (r.verdict == Verdict.Review ==> SaysWord(span, "agentcontrol.policy.decision", "review"))
    && (r.verdict == Abstain ==> SaysWord(span, "agentcontrol.policy.decision", "abstain"))
    && SaysWord(span, "agentcontrol.policy.provider", r.provider)
    && SaysWord(span, "agentcontrol.policy.reason", r.reason)
    && Look(span, "agentcontrol.policy.unavailable") == Some(JBool(r.unavailable))
    && SaysText(span, "agentcontrol.policy.id", r.policyId)
    && Look(span, "agentcontrol.policy.decision_id") == (if Void(r.decisionId) then None else Some(r.decisionId))
    && (r.failMode == None ==> Look(span, "agentcontrol.policy.fail_mode") == None)
    && (r.failMode == Some(Open) ==> SaysWord(span, "agentcontrol.policy.fail_mode", "open"))
    && (r.failMode == Some(Closed) ==> SaysWord(span, "agentcontrol.policy.fail_mode", "closed"))
  }

  lemma DecisionBlock(r: ControlResult, latencyMs: Option<int>)
    ensures DecisionOn(DecisionAttributes(r, latencyMs), r)
  {
    VoidIsFalsy(r.decisionId);
  }

  lemma DecisionCarries(a: Span, b: Span, r: ControlResult)
    requires AlikeOn(a, b, 'p') && DecisionOn(b, r)
    ensures DecisionOn(a, r)
  {
  }

  /** The decision, on every span: verdict, provider, reason and outage mark always; rule, audit id
      and fail mode exactly when there is one. */
  lemma DecisionShown(rec: Record, cfg: SpanConfig, extras: SpanExtras)
    ensures DecisionOn(SpanAttributes(rec, cfg, extras), rec.result)
  {
    SpanParts(rec, cfg, extras);
    DecisionBlock(rec.result, extras.latencyMs);
    DecisionCarries(SpanAttributes(rec, cfg, extras), DecisionAttributes(rec.result, extras.latencyMs), rec.result);
  }

  // ---------------------------------------------------------------- the call

  /** What the span says of the call. */
  predicate CallOn(span: Span, i: Intent) {
    && SaysWord(span, "gen_ai.operation.name", "execute_tool")
    && SaysWord(span, "gen_ai.tool.name", i.tool)
    && SaysWord(span, "gen_ai.agent.id", i.agent)
    && SaysText(span, "gen_ai.tool.call.id", i.toolCallId)
    && SaysText(span, "gen_ai.tool.type", i.toolType)
    && SaysText(span, "gen_ai.conversation.id", i.threadId)
  }

  /** What the span says of the call's context. */
  predicate ContextOn(span: Span, i: Intent, enforcing: bool) {
    && (i.trust == Trusted ==> SaysWord(span, "agentcontrol.context.trust", "trusted"))
    && (i.trust == Untrusted ==> SaysWord(span, "agentcontrol.context.trust", "untrusted"))
    && (i.trust == Unknown ==> SaysWord(span, "agentcontrol.context.trust", "unknown"))
    && Look(span, "agentcontrol.capability.enforcement") == Some(JBool(enforcing))
    && SaysText(span, "agentcontrol.context.source", i.source)
    && SaysText(span, "agentcontrol.action.resource", i.resource)
    && SaysMark(span, "agentcontrol.correlation.orphan",
                (forall c :: c in i.traceId ==> c == '0') || (forall c :: c in i.spanId ==> c == '0'))
  }

  lemma CallBlock(i: Intent, cfg: SpanConfig, description: Option<string>)
    ensures CallOn(ConventionAttributes(i, cfg, description), i)
  {
  }

  lemma ContextBlock(i: Intent, cfg: SpanConfig)
    ensures ContextOn(ContextAttributes(i, cfg), i, cfg.enforcing)
  {
  }

  lemma CallCarries(a: Span, b: Span, i: Intent)
    requires AlikeOn(a, b, 'g') && CallOn(b, i)
    ensures CallOn(a, i)
  {
    assert |"gen_ai.tool.call.result"| == 23;
  }

  lemma ContextCarries(a: Span, b: Span, i: Intent, enforcing: bool)
    requires AlikeOn(a, b, 'c') && AlikeOn(a, b, 'a') && ContextOn(b, i, enforcing)
    ensures ContextOn(a, i, enforcing)
  {
  }

  /** The call, on every span: tool and agent always, the rest exactly when it is known. */
  lemma CallShown(rec: Record, cfg: SpanConfig, extras: SpanExtras)
    ensures CallOn(SpanAttributes(rec, cfg, extras), rec.intent)
  {
    SpanParts(rec, cfg, extras);
    CallBlock(rec.intent, cfg, extras.description);
    CallCarries(SpanAttributes(rec, cfg, extras), ConventionAttributes(rec.intent, cfg, extras.description),
                rec.intent);
  }

  lemma ContextShown(rec: Record, cfg: SpanConfig, extras: SpanExtras)
    ensures ContextOn(SpanAttributes(rec, cfg, extras), rec.intent, cfg.enforcing)
  {
    SpanParts(rec, cfg, extras);
    ContextBlock(rec.intent, cfg);
    ContextCarries(SpanAttributes(rec, cfg, extras), ContextAttributes(rec.intent, cfg), rec.intent, cfg.enforcing);
  }

  // ---------------------------------------------------------------- the review and the outcome

  /** An identifier in a hold id: '-' stands for none. */
  function Named(o: Option<string>): string {
    match o
    case Some(s) => if |s| > 0 then s else "-"
    case None => "-"
  }

  /** What the span says of the review: nothing without one. */
  predicate ReviewOn(span: Span, rec: Record) {
    && (rec.state == None ==> Look(span, "agentcontrol.review.state") == None)
    && (rec.state == Some(Pending) ==> SaysWord(span, "agentcontrol.review.state", "pending"))
    && (rec.state == Some(Approved) ==> SaysWord(span, "agentcontrol.review.state", "approved"))
    && (rec.state == Some(Rejected) ==> SaysWord(span, "agentcontrol.review.state", "rejected"))
    && (rec.state == Some(TimedOut) ==> SaysWord(span, "agentcontrol.review.state", "timed_out"))
    && (rec.state.None? ==> Look(span, "agentcontrol.review.hold_id") == None)
    && (rec.state.Some? ==>
          SaysWord(span, "agentcontrol.review.hold_id",
                   Named(rec.intent.threadId) + ":" + Named(rec.intent.toolCallId)))
    && (Look(span, "agentcontrol.review.deadline") ==
        if rec.state.Some? && rec.deadline.Some? then Some(JStr(rec.deadline.value)) else None)
    && SaysMark(span, "agentcontrol.review.replay", rec.state.Some? && rec.replay)
  }

  lemma ReviewBlock(rec: Record)
    ensures ReviewOn(ReviewAttributes(rec), rec)
  {
  }

  lemma ReviewCarries(a: Span, b: Span, rec: Record)
    requires AlikeOn(a, b, 'r') && ReviewOn(b, rec)
    ensures ReviewOn(a, rec)
  {
  }

  /** The review, on every span: state and hold id exactly when there is one, its deadline and replay
      mark exactly when set. */
  lemma ReviewShown(rec: Record, cfg: SpanConfig, extras: SpanExtras)
    ensures ReviewOn(SpanAttributes(rec, cfg, extras), rec)
  {
    SpanParts(rec, cfg, extras);
    ReviewBlock(rec);
    ReviewCarries(SpanAttributes(rec, cfg, extras), ReviewAttributes(rec), rec);
  }

  /** The error type, on every span: exactly the record's. */
  lemma ErrorShown(rec: Record, cfg: SpanConfig, extras: SpanExtras)
    ensures Look(SpanAttributes(rec, cfg, extras), "error.type") ==
            if rec.error.Some? then Some(JStr(rec.error.value)) else None
  {
    SpanParts(rec, cfg, extras);
  }

  /** What a call brings besides the decision. */
  predicate ExtrasOn(span: Span, extras: SpanExtras) {
    && SaysText(span, "gen_ai.tool.description", extras.description)
    && Look(span, "agentcontrol.policy.latency_ms") ==
       (if extras.latencyMs.Some? then Some(JInt(extras.latencyMs.value)) else None)
  }

  lemma LatencyBlock(r: ControlResult, latencyMs: Option<int>)
    ensures Look(DecisionAttributes(r, latencyMs), "agentcontrol.policy.latency_ms") ==
            (if latencyMs.Some? then Some(JInt(latencyMs.value)) else None)
  {
  }

  lemma DescriptionBlock(i: Intent, cfg: SpanConfig, description: Option<string>)
    ensures SaysText(ConventionAttributes(i, cfg, description), "gen_ai.tool.description", description)
  {
  }

  lemma ExtrasCarry(span: Span, decision: Span, convention: Span, extras: SpanExtras)
    requires AlikeOn(span, decision, 'p') && AlikeOn(span, convention, 'g')
    requires SaysText(convention, "gen_ai.tool.description", extras.description)
    requires Look(decision, "agentcontrol.policy.latency_ms") ==
             (if extras.latencyMs.Some? then Some(JInt(extras.latencyMs.value)) else None)
    ensures ExtrasOn(span, extras)
  {
    assert "gen_ai.tool.description"[12] == 'd' && "gen_ai.tool.call.result"[12] == 'c';
  }

  lemma ExtrasShown(rec: Record, cfg: SpanConfig, extras: SpanExtras)
    ensures ExtrasOn(SpanAttributes(rec, cfg, extras), extras)
  {
    SpanParts(rec, cfg, extras);
    LatencyBlock(rec.result, extras.latencyMs);
    DescriptionBlock(rec.intent, cfg, extras.description);
    ExtrasCarry(SpanAttributes(rec, cfg, extras), DecisionAttributes(rec.result, extras.latencyMs),
                ConventionAttributes(rec.intent, cfg, extras.description), extras);
  }

  // ---------------------------------------------------------------- reading the log back from spans

  /** What is known of a call from its spans: nothing, held for review, or ended in one of seven ways. */
  datatype Reading =
    | NoSpan | StillHeld
    | SaysRan | SaysRanUnauthorized | SaysApproved
    | SaysRule | SaysOutage | SaysHuman | SaysTimeout

  /** The cause a closing span states, read by its words. */
  function ReadCause(span: Span): Reading {
    var decision, state := Look(span, "agentcontrol.policy.decision"), Look(span, "agentcontrol.review.state");
    var error := Look(span, "error.type");
    if decision == Some(JStr("allow")) then
      if state == Some(JStr("approved")) then SaysApproved
      else if Look(span, "agentcontrol.policy.unavailable") == Some(JBool(true)) then SaysRanUnauthorized
      else SaysRan
    else if error == Some(JStr("agentcontrol.review_timeout")) then SaysTimeout
    else if error == Some(JStr("agentcontrol.review_rejected")) then SaysHuman
    else if error == Some(JStr("agentcontrol.policy_unavailable")) then SaysOutage
    else SaysRule
  }

  /** The fold over a call's spans. Pending spans, replayed or not, collapse into one. */
  function ReadSpans(spans: seq<Span>): Reading {
    if spans == [] then NoSpan
    else if Look(spans[|spans| - 1], "agentcontrol.review.state") == Some(JStr("pending")) then StillHeld
    else ReadCause(spans[|spans| - 1])
  }
}
