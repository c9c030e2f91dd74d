/** The policy provider: decoding one transport outcome into a result, failing closed
    (agentcontrol/providers/policy/opa.py and base.py). */
module Opa {
  import opened Text
  import opened Json
  import opened Domain

  /** What one request to the policy engine came back as. A body is absent when it is not JSON. */
  datatype Transport =
    | RequestTimeout
    | RequestError
    | Response(status: int, body: Option<Json>)

  /** The result, or the exception a membership test on an unhashable value raises. */
  datatype Answer = Answered(result: ControlResult) | Raised

  const PROVIDER := "opa"

  function Unavailable(reason: string, mode: FailMode): (r: ControlResult)
    ensures ValidResult(r) && r.unavailable && "policy provider unavailable: " <= r.reason
  {
    ControlResult(
      if mode == Open then Allow else Deny,
      PROVIDER, "policy provider unavailable: " + reason, [], None, JNull, true, Some(mode), None)
  }

  function EnforceableVerdict(j: Json): Option<Verdict> {
    if j == JStr("allow") then Some(Allow)
    else if j == JStr("deny") then Some(Deny)
    else if j == JStr("review") then Some(Review)
    else None
  }

  function OrNull(j: Json): Json {
    if Truthy(j) then j else JNull
  }

  function OptionalStr(j: Json): Option<string> {
    if j == JNull then None else Some(Str(j))
  }

  function BuildResult(mode: FailMode, verdict: Verdict, result: map<string, Json>,
                       evidence: seq<Evidence>, decisionId: Json): ControlResult {
    var timeout := Integer(Get(result, "review_timeout_seconds"));
    if verdict == Review && timeout.None? then
      Unavailable("review without an integer review_timeout_seconds", mode)
    else
      var reason := Get(result, "reason");
      ControlResult(
        verdict, PROVIDER,
        if Truthy(reason) then Str(reason) else "policy returned " + VerdictText(verdict),
        evidence, OptionalStr(Get(result, "policy_id")), decisionId, false, None,
        if verdict == Review then timeout else None)
  }

  function Authorize(mode: FailMode, reply: Transport, evidence: seq<Evidence>): Answer {
    match reply
    case RequestTimeout => Answered(Unavailable("timeout", mode))
    case RequestError => Answered(Unavailable("transport error", mode))
    case Response(status, body) =>
      if status / 100 != 2 then Answered(Unavailable("HTTP status", mode))
      else if body.None? then Answered(Unavailable("response body is not JSON", mode))
      else if !body.value.JObj? then Answered(Unavailable("response body is not a JSON object", mode))
      else
        var result := Get(body.value.fields, "result");
        if !result.JObj? then Answered(Unavailable("policy document is undefined", mode))
        else
          var decision := Get(result.fields, "decision");
          if !Hashable(decision) then Raised
          else
            var verdict := EnforceableVerdict(decision);
            if verdict.None? then Answered(Unavailable("unexpected decision", mode))
            else Answered(BuildResult(mode, verdict.value, result.fields, evidence,
                                      OrNull(Get(body.value.fields, "decision_id"))))
  }

  // ---------------------------------------------------------------- what a reply says

  /** The `result` object of a 2xx JSON object reply. */
  function ResultBlock(reply: Transport): Option<map<string, Json>> {
    if && reply.Response? && 200 <= reply.status <= 299
       && reply.body.Some? && reply.body.value.JObj?
       && Get(reply.body.value.fields, "result").JObj?
    then Some(Get(reply.body.value.fields, "result").fields)
    else None
  }

  /** The reply names v as its decision, whatever its window. */
  predicate Names(reply: Transport, v: Verdict) {
    && v != Abstain
    && ResultBlock(reply).Some?
    && Get(ResultBlock(reply).value, "decision") == JStr(VerdictText(v))
  }

  /** The reply is a usable decision for v: a 2xx JSON object whose result names v, with an
      integer window when v is a review. */
  predicate Decides(reply: Transport, v: Verdict) {
    && Names(reply, v)
    && (v == Review ==> Integer(Get(ResultBlock(reply).value, "review_timeout_seconds")).Some?)
  }

  /** The one kind of reply the membership test cannot take. */
  predicate Undecodable(reply: Transport) {
    && ResultBlock(reply).Some?
    && !Hashable(Get(ResultBlock(reply).value, "decision"))
  }

  /** The decision word and the verdict determine each other. */
  lemma Word(j: Json, v: Verdict)
    ensures EnforceableVerdict(j) == Some(v) <==> v != Abstain && j == JStr(VerdictText(v))
  {
    assert "allow"[0] == 'a' && "deny"[0] == 'd' && "review"[0] == 'r';
  }

  /** A valid result that stands in for an answer. */
  predicate Fallback(r: ControlResult, mode: FailMode) {
    && ValidResult(r) && r.unavailable && r.policyId == None && r.failMode == Some(mode)
    && r.evidence == [] && r.decisionId == JNull && "policy provider unavailable: " <= r.reason
    && r.verdict == (if mode == Open then Allow else Deny)
  }

  lemma NoBlock(mode: FailMode, reply: Transport, evidence: seq<Evidence>)
    requires ResultBlock(reply).None?
    ensures var a := Authorize(mode, reply, evidence); a.Answered? && Fallback(a.result, mode)
  {
  }

  lemma BlockBuilt(mode: FailMode, v: Verdict, result: map<string, Json>, evidence: seq<Evidence>, id: Json)
    requires v != Abstain
    ensures var r := BuildResult(mode, v, result, evidence, id);
            if v == Review && Integer(Get(result, "review_timeout_seconds")).None? then Fallback(r, mode)
            else ValidResult(r) && !r.unavailable && r.verdict == v && r.evidence == evidence
  {
    if Truthy(Get(result, "reason")) {
      TruthyText(Get(result, "reason"));
    }
  }

  lemma Block(mode: FailMode, reply: Transport, evidence: seq<Evidence>)
    requires ResultBlock(reply).Some?
    ensures var a, d := Authorize(mode, reply, evidence), Get(ResultBlock(reply).value, "decision");
            if !Hashable(d) then a == Raised
            else if EnforceableVerdict(d).None? then a.Answered? && Fallback(a.result, mode)
            else a == Answered(BuildResult(mode, EnforceableVerdict(d).value, ResultBlock(reply).value, evidence,
                                           OrNull(Get(reply.body.value.fields, "decision_id"))))
  {
  }

  /** Exactly which replies are which. A reply is answered unless its decision is an array or
      an object. The answer is a valid result; it is available exactly when the reply decides
      a verdict, which it then carries; otherwise it is a denial under fail-closed and an
      allow under fail-open, with no rule attached. */
  lemma Classified(mode: FailMode, reply: Transport, evidence: seq<Evidence>)
    ensures Authorize(mode, reply, evidence).Raised? <==> Undecodable(reply)
    ensures var a := Authorize(mode, reply, evidence);
            a.Answered? ==>
              && ValidResult(a.result)
              && (a.result.unavailable ==> Fallback(a.result, mode))
              && (!a.result.unavailable ==> a.result.evidence == evidence)
    ensures forall v :: Decides(reply, v) <==>
              var a := Authorize(mode, reply, evidence);
              a.Answered? && !a.result.unavailable && a.result.verdict == v
  {
    if ResultBlock(reply).None? {
      NoBlock(mode, reply, evidence);
    } else {
      Block(mode, reply, evidence);
      var d := Get(ResultBlock(reply).value, "decision");
      forall v {
        Word(d, v);
      }
      if Hashable(d) && EnforceableVerdict(d).Some? {
        BlockBuilt(mode, EnforceableVerdict(d).value, ResultBlock(reply).value, evidence,
                   OrNull(Get(reply.body.value.fields, "decision_id")));
      }
    }
  }

  // ---------------------------------------------------------------- what an answer says

  /** The reason the result block gives, or the decision by its word if it gives none. */
  predicate GivesReason(reason: string, block: map<string, Json>, v: Verdict) {
    var given := Look(block, "reason");
    if given.None? || Void(given.value) then
      && (v == Allow ==> reason == "policy returned allow")
      && (v == Deny ==> reason == "policy returned deny")
      && (v == Review ==> reason == "policy returned review")
    else if given.value.JStr? then reason == given.value.text
    else reason == Str(given.value)
  }

  /** The rule the result block names, none if it is absent or null. */
  predicate GivesRule(rule: Option<string>, block: map<string, Json>) {
    var given: Option<Json> := Look(block, "policy_id");
    match given
    case None => rule == None
    case Some(JNull) => rule == None
    case Some(JStr(s)) => rule == Some(s)
    case Some(j) => rule == Some(Str(j))
  }

  /** The audit id of the reply's body, null if it says none. */
  predicate GivesAudit(id: Json, body: map<string, Json>) {
    var given := Look(body, "decision_id");
    if given.None? || Void(given.value) then id == JNull else id == given.value
  }

  /** The window of a review in whole seconds, true and false counting as one and zero. */
  predicate GivesWindow(window: Option<int>, block: map<string, Json>) {
    var given: Option<Json> := Look(block, "review_timeout_seconds");
    match given
    case Some(JInt(n)) => window == Some(n)
    case Some(JBool(b)) => window == Some(if b then 1 else 0)
    case _ => false
  }

  /** The result says what the reply says for v: its verdict, reason, rule and audit id, its window
      if it is a review, the evidence it was asked with, and no mark of an outage. */
  predicate Tells(r: ControlResult, reply: Transport, v: Verdict, evidence: seq<Evidence>) {
    && ResultBlock(reply).Some? && reply.body.value.JObj?
    && r.verdict == v && r.provider == "opa" && r.evidence == evidence && !r.unavailable && r.failMode == None
    && GivesReason(r.reason, ResultBlock(reply).value, v)
    && GivesRule(r.policyId, ResultBlock(reply).value)
    && GivesAudit(r.decisionId, reply.body.value.fields)
    && (if v == Review then GivesWindow(r.window, ResultBlock(reply).value) else r.window == None)
  }

  lemma BuiltTells(mode: FailMode, v: Verdict, reply: Transport, evidence: seq<Evidence>)
    requires ResultBlock(reply).Some? && v != Abstain
    requires v == Review ==> Integer(Get(ResultBlock(reply).value, "review_timeout_seconds")).Some?
    ensures Tells(BuildResult(mode, v, ResultBlock(reply).value, evidence,
                              OrNull(Get(reply.body.value.fields, "decision_id"))), reply, v, evidence)
  {
    var block, body := ResultBlock(reply).value, reply.body.value.fields;
    VoidIsFalsy(Get(block, "reason"));
    VoidIsFalsy(Get(body, "decision_id"));
    assert "policy returned " + "allow" == "policy returned allow";
    assert "policy returned " + "deny" == "policy returned deny";
    assert "policy returned " + "review" == "policy returned review";
  }

  /** A reply that decides v is answered with what it says, field by field. */
  lemma AnswerTells(mode: FailMode, reply: Transport, v: Verdict, evidence: seq<Evidence>)
    requires Decides(reply, v)
    ensures Authorize(mode, reply, evidence).Answered?
    ensures Tells(Authorize(mode, reply, evidence).result, reply, v, evidence)
  {
    Block(mode, reply, evidence);
    Word(Get(ResultBlock(reply).value, "decision"), v);
    BuiltTells(mode, v, reply, evidence);
  }

  /** The audit id reaches nothing else: changing it in a reply changes no other part of the answer. */
  lemma AuditIdOnly(mode: FailMode, status: int, body: map<string, Json>, id: Json, evidence: seq<Evidence>)
    ensures var a := Authorize(mode, Response(status, Some(JObj(body))), evidence);
            var b := Authorize(mode, Response(status, Some(JObj(body["decision_id" := id]))), evidence);
            && a.Answered? == b.Answered?
            && (a.Answered? ==> Anonymous(a.result) == Anonymous(b.result))
            && (b.Answered? && !b.result.unavailable ==> b.result.decisionId == if Void(id) then JNull else id)
  {
    assert "result"[0] != "decision_id"[0];
    assert Get(body["decision_id" := id], "result") == Get(body, "result");
    VoidIsFalsy(id);
  }

  /** The client. It remembers only whether the missing audit id was already warned about. */
  class Provider {
    const mode: FailMode
    var warned: bool

    constructor (mode: FailMode)
      ensures this.mode == mode && !warned
    {
      this.mode := mode;
      warned := false;
    }

    /** The answer is the decoder's whatever was warned before. The warning is given exactly when a
        reply names a decision without an audit id, the first time that happens. */
    method AuthorizeReply(reply: Transport, evidence: seq<Evidence>) returns (a: Answer, warn: bool)
      modifies this`warned
      ensures a == Authorize(mode, reply, evidence)
      ensures warned == (old(warned) || warn)
      ensures warn <==>
              && !old(warned) && (Names(reply, Allow) || Names(reply, Deny) || Names(reply, Review))
              && ("decision_id" in reply.body.value.fields ==> Void(reply.body.value.fields["decision_id"]))
    {
      warn := false;
      a := Authorize(mode, reply, evidence);
      if reply.Response? && reply.status / 100 == 2 && reply.body.Some? && reply.body.value.JObj? {
        var body := reply.body.value.fields;
        var result := Get(body, "result");
        if result.JObj? && Hashable(Get(result.fields, "decision")) {
          var verdict := EnforceableVerdict(Get(result.fields, "decision"));
          if verdict.Some? && OrNull(Get(body, "decision_id")) == JNull && !warned {
            warned := true;
            warn := true;
          }
          VoidIsFalsy(Get(body, "decision_id"));
        }
      }
    }
  }
}
