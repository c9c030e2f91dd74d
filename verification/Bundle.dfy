/** The shipped policy bundle, served to the client and run through the protocol
    (policies/tool_authorization.rego). */
module Bundle {
  import opened Text
  import opened Json
  import opened Domain
  import opened Opa
  import opened Review
  import opened Protocol
  import opened Cells
  import opened Locality
  import opened Histories
  import opened Deadlines

  const DESTRUCTIVE := "github.delete_repository"
  const PRODUCTION := "company/production"
  const THRESHOLD := 0.8
  const WINDOW := 900

  datatype Ruling = Ruling(decision: Verdict, reason: string, policyId: string, window: int)

  const DEFAULT_ALLOW := Ruling(Allow, "no rule matched; default allow", "agentcontrol.authz.default_allow", WINDOW)
  const DENY_INJECTION := Ruling(Deny, "injection score exceeds the threshold for untrusted context",
                                "agentcontrol.authz.deny_injection_untrusted", WINDOW)
  const DENY_DESTRUCTIVE := Ruling(Deny, "destructive tool is blocked unconditionally",
                                  "agentcontrol.authz.deny_destructive_tool", WINDOW)
  const REVIEW_PRODUCTION := Ruling(Verdict.Review, "write against a production resource requires human approval",
                                   "agentcontrol.authz.review_production_resource", WINDOW)

  /** The injection score policy reads, zero when no collector wrote one. */
  function Score(evidence: seq<Evidence>): Option<real> {
    match LastValue(evidence, "nemo_injection", "score")
    case None => Some(0.0)
    case Some(JInt(n)) => Some(n as real)
    case Some(JReal(r)) => Some(r)
    case Some(_) => None
  }

  predicate Injected(i: Intent, score: real) {
    score > THRESHOLD && i.trust == Untrusted
  }

  predicate OnProduction(i: Intent) {
    i.resource == Some(PRODUCTION) && i.tool != DESTRUCTIVE
  }

  /** The `result` rules whose bodies hold. */
  function Fired(i: Intent, score: real): seq<Ruling> {
    (if Injected(i, score) then [DENY_INJECTION] else []) +
    (if i.tool == DESTRUCTIVE then [DENY_DESTRUCTIVE] else []) +
    (if OnProduction(i) then [REVIEW_PRODUCTION] else [])
  }

  /** A complete rule has the default when no body holds, one value when all that hold agree,
      and is an evaluation error otherwise. */
  datatype Evaluation = Value(ruling: Ruling) | Conflict

  function Evaluate(fired: seq<Ruling>): Evaluation {
    if fired == [] then Value(DEFAULT_ALLOW)
    else if forall k :: 0 <= k < |fired| ==> fired[k] == fired[0] then Value(fired[0])
    else Conflict
  }

  /** The engine's reply: the value, or a server error. */
  function Serve(e: Evaluation): Transport {
    match e
    case Conflict => Response(500, None)
    case Value(r) => Response(200, Some(JObj(map["result" := JObj(map[
        "decision" := JStr(VerdictText(r.decision)),
        "reason" := JStr(r.reason),
        "policy_id" := JStr(r.policyId),
        "review_timeout_seconds" := JInt(r.window)])])))
  }

  function Bundled(i: Intent, score: real): Transport {
    Serve(Evaluate(Fired(i, score)))
  }

  lemma RulesDiffer()
    ensures DENY_INJECTION.policyId != DENY_DESTRUCTIVE.policyId
    ensures DENY_INJECTION.decision != REVIEW_PRODUCTION.decision
  {
    assert |DENY_INJECTION.policyId| != |DENY_DESTRUCTIVE.policyId|;
  }

  /** The injection rule's condition on a call, and those of the other two, in policy's own terms. */
  predicate Suspect(i: Intent, score: real) {
    score > 0.8 && i.trust == Untrusted
  }

  predicate Destroys(i: Intent) {
    i.tool == "github.delete_repository"
  }

  predicate WritesProduction(i: Intent) {
    i.resource == Some("company/production") && !Destroys(i)
  }

  /** The rules give one value except when the injection rule fires together with the
      destructive or the production rule; and which value that is. */
  lemma OneValue(i: Intent, score: real)
    ensures var e := Evaluate(Fired(i, score));
            && (e == Conflict <==> Suspect(i, score) && (Destroys(i) || WritesProduction(i)))
            && (e.Value? ==>
                  && (e.ruling.decision == Deny <==> Suspect(i, score) || Destroys(i))
                  && (e.ruling.decision == Verdict.Review <==> WritesProduction(i))
                  && (e.ruling.decision in {Allow, Deny, Verdict.Review}) && e.ruling.window == 900)
  {
    RulesDiffer();
    var f := Fired(i, score);
    if Injected(i, score) && (i.tool == DESTRUCTIVE || OnProduction(i)) {
      assert f[0] == DENY_INJECTION && f[1] != f[0];
    }
  }

  /** The score policy reads: nothing collected reads as zero, the last score collected counts, and no
      other signal does. */
  lemma ScoreReads(evidence: seq<Evidence>, e: Evidence)
    ensures Score([]) == Some(0.0)
    ensures var scores := e.collector == "nemo_injection" && e.signal == "score";
            Score(evidence + [e]) ==
            if !scores then Score(evidence)
            else if e.value.JInt? then Some(e.value.num as real)
            else if e.value.JReal? then Some(e.value.frac) else None
  {
    assert (evidence + [e])[..|evidence|] == evidence;
  }

  lemma ResultKeys()
    ensures "reason" !in {"decision"} && "policy_id" !in {"decision", "reason"}
    ensures "review_timeout_seconds" !in {"decision", "reason", "policy_id"}
  {
    assert "decision"[0] == 'd' && "policy_id"[0] == 'p';
    assert "reason"[2] == 'a' && "review_timeout_seconds"[2] == 'v';
  }

  /** The client decodes what the bundle decided. */
  lemma ServedDecides(r: Ruling, v: Verdict)
    requires r.decision != Abstain
    ensures Decides(Serve(Value(r)), v) <==> v == r.decision
  {
    ResultKeys();
    Word(JStr(VerdictText(r.decision)), v);
    Word(JStr(VerdictText(r.decision)), r.decision);
  }

  lemma ConflictDecidesNothing(v: Verdict)
    ensures !Decides(Serve(Conflict), v) && !Undecodable(Serve(Conflict))
  {
  }

  /** The destructive tool, end to end: the client denies it for every trust, resource and
      score, except that under fail-open a conflict with the injection rule lets it through. */
  lemma DestructiveVerdict(mode: FailMode, i: Intent, score: real, evidence: seq<Evidence>)
    requires Destroys(i)
    ensures var a := Authorize(mode, Bundled(i, score), evidence);
            && a.Answered?
            && (a.result.verdict == Allow <==> mode == Open && Suspect(i, score))
            && (a.result.verdict == Deny <==> mode == Closed || !Suspect(i, score))
  {
    OneValue(i, score);
    Classified(mode, Bundled(i, score), evidence);
    var e := Evaluate(Fired(i, score));
    if e.Value? {
      ServedDecides(e.ruling, Deny);
    } else {
      forall v {
        ConflictDecidesNothing(v);
      }
    }
  }

  // ---------------------------------------------------------------- through the protocol

  /** What comes back on a pass is the bundle's reply to the policy input built for it, or anything
      that decides nothing: a transport failure, an error status, a body that is no decision. */
  predicate FromBundle(e: Event)
    requires e.Call? || e.Resume?
  {
    || !DecidesAny(e.env.reply)
    || (Score(Collected(e.env.gathered)).Some?
        && e.env.reply == Bundled(e.intent, Score(Collected(e.env.gathered)).value))
  }

  /** Every pass over call t is a call of this tool on this resource, answered by the bundle. */
  predicate Governed(es: seq<Event>, t: Task, tool: string, resource: Option<string>) {
    forall k :: 0 <= k < |es| && About(es[k], t) ==>
      FromBundle(es[k]) && es[k].intent.tool == tool && es[k].intent.resource == resource
  }

  lemma BundleSays(e: Event)
    requires e.Call? || e.Resume?
    requires FromBundle(e)
    ensures e.intent.tool == DESTRUCTIVE ==>
              !Decides(e.env.reply, Allow) && !Decides(e.env.reply, Verdict.Review)
    ensures e.intent.resource == Some(PRODUCTION) ==> !Decides(e.env.reply, Allow)
  {
    if DecidesAny(e.env.reply) {
      var score := Score(Collected(e.env.gathered)).value;
      OneValue(e.intent, score);
      var v := Evaluate(Fired(e.intent, score));
      if v.Value? {
        ServedDecides(v.ruling, Allow);
        ServedDecides(v.ruling, Verdict.Review);
      }
    }
  }

  /** Under fail-closed the destructive tool never runs: not in any run, for any trust,
      resource or numeric score, whatever is answered, lost, retried or out. */
  lemma DestructiveNeverRuns(cfg: Config, es: seq<Event>, t: Task, resource: Option<string>)
    requires Good(es, t) && cfg.failMode == Closed && Governed(es, t, "github.delete_repository", resource)
    ensures Of(Run(cfg, es).execs, t) == []
  {
    EndingsExplained(cfg, es, t);
    RunLocal(cfg, es, t);
    var s := Run(cfg, es);
    var replies := CellRun(cfg, es, t).replies;
    forall k | 0 <= k < |replies|
      ensures !Decides(replies[k], Allow) && !Decides(replies[k], Verdict.Review)
    {
      var j := RepliesFromPasses(cfg, es, t, k);
      BundleSays(es[j]);
    }
  }

  /** Under fail-closed a write to production runs only after a response that was given to it and
      approves, no later than the deadline fixed on the call's first pass. */
  lemma ProductionNeedsApproval(cfg: Config, es: seq<Event>, k: nat, tool: string) returns (n: nat, m: nat, j: nat)
    requires k < |Run(cfg, es).execs| && cfg.failMode == Closed
    requires var t, x := Run(cfg, es).execs[k].task, Run(cfg, es).execs[k].item;
             && Good(es, t) && Governed(es, t, tool, Some("company/production")) && Never(cfg, Moving, es, t)
             && (x.via.Reviewed? ==> FromPayload(x.via.response).None?)
    ensures var t, x := Run(cfg, es).execs[k].task, Run(cfg, es).execs[k].item;
            ApprovedInTime(cfg, es, t, x, n, m, j)
  {
    var t := Run(cfg, es).execs[k].task;
    forall p | 0 <= p < |es| && Asks(cfg, es, t, p)
      ensures !Decides(es[p].env.reply, Allow)
    {
      BundleSays(es[p]);
    }
    n, m, j := ApprovalSafety(cfg, es, k);
  }
}
