/** Human-review holds: the payload kept in the checkpoint, the absolute deadline, and the
    resolution of a hold against a response (agentcontrol/adapters/langgraph/review.py). */
module Review {
  import opened Text
  import opened Json
  import opened Domain

  const SENTINEL := "__agentcontrol_timeout__"

  datatype Hold = Hold(
    holdId: string,
    tool: string,
    resource: Json,
    reason: string,
    policyId: Json,
    deadline: string,
    requestedAt: string)

  /** `datetime.isoformat` and `fromisoformat`, over integer seconds. */
  function Iso(at: int): string {
    IntText(at)
  }

  function FromIso(s: string): Option<int> {
    ParseInt(s)
  }

  // ---------------------------------------------------------------- payload codec

  function ToPayload(h: Hold): Json {
    JObj(map["agentcontrol" := JObj(map[
      "hold_id" := JStr(h.holdId),
      "tool" := JStr(h.tool),
      "resource" := h.resource,
      "reason" := JStr(h.reason),
      "policy_id" := h.policyId,
      "deadline" := JStr(h.deadline),
      "requested_at" := JStr(h.requestedAt)])])
  }

  function StrOrEmpty(fields: map<string, Json>, key: string): string {
    if key in fields then Str(fields[key]) else ""
  }

  function FromPayload(payload: Json): Option<Hold> {
    if !payload.JObj? then None
    else
      var data := Get(payload.fields, "agentcontrol");
      if !data.JObj? then None
      else
        var f := data.fields;
        if "hold_id" !in f || "tool" !in f || "deadline" !in f then None
        else Some(Hold(
          Str(f["hold_id"]), Str(f["tool"]), Get(f, "resource"), StrOrEmpty(f, "reason"),
          Get(f, "policy_id"), Str(f["deadline"]), StrOrEmpty(f, "requested_at")))
  }

  lemma PayloadKeys()
    ensures "tool" != "hold_id"
    ensures "resource" !in {"hold_id", "tool"}
    ensures "reason" !in {"hold_id", "tool", "resource"}
    ensures "policy_id" !in {"hold_id", "tool", "resource", "reason"}
    ensures "deadline" !in {"hold_id", "tool", "resource", "reason", "policy_id"}
    ensures "requested_at" !in {"hold_id", "tool", "resource", "reason", "policy_id", "deadline"}
  {
    assert "reason"[2] == 'a' && "resource"[2] == 's' && "requested_at"[2] == 'q';
    assert "hold_id"[0] == 'h' && "tool"[0] == 't' && "policy_id"[0] == 'p' && "deadline"[0] == 'd';
    assert "reason"[0] == 'r' && "resource"[0] == 'r' && "requested_at"[0] == 'r';
  }

  /** Decoding undoes encoding. */
  lemma RoundTrip(h: Hold)
    ensures FromPayload(ToPayload(h)) == Some(h)
  {
    PayloadKeys();
  }

  /** Whatever payload a hold was decoded from, encoding it again loses nothing. */
  lemma Reencode(payload: Json)
    ensures FromPayload(payload).Some? ==> FromPayload(ToPayload(FromPayload(payload).value)) == FromPayload(payload)
  {
    if FromPayload(payload).Some? {
      RoundTrip(FromPayload(payload).value);
    }
  }

  // ---------------------------------------------------------------- deadline

  predicate Expired(h: Hold, now: int)
    requires FromIso(h.deadline).Some?
  {
    now > FromIso(h.deadline).value
  }

  function BuildHold(i: Intent, r: ControlResult, fallback: int, now: int): Hold {
    var window := if r.window.Some? && r.window.value != 0 then r.window.value else fallback;
    Hold(HoldId(i), i.tool, OptText(i.resource), r.reason, OptText(r.policyId), Iso(now + window), Iso(now))
  }

  /** A built hold is keyed by its call and expires one window after the request. Policy
      supplies the window; the configured one serves when policy is silent or says zero. */
  lemma BuildHoldDeadline(i: Intent, r: ControlResult, fallback: int, now: int)
    ensures var h := BuildHold(i, r, fallback, now);
            && h.holdId == IdOf(Key(i))
            && FromIso(h.requestedAt) == Some(now)
            && FromIso(h.deadline).Some?
            && FromIso(h.deadline).value - now == (if r.window.GetOr(0) == 0 then fallback else r.window.value)
  {
    ParseIntText(now);
    ParseIntText(now + if r.window.Some? && r.window.value != 0 then r.window.value else fallback);
  }

  // ---------------------------------------------------------------- resolution

  datatype Parsed = Parsed(approve: Option<bool>, actor: Json, reason: Json)

  function DecisionWord(s: string): Option<bool> {
    if Normal(s) == "approve" then Some(true)
    else if Normal(s) == "reject" then Some(false)
    else None
  }

  function ParseDecision(response: Json): Parsed {
    if response == JStr(SENTINEL) then Parsed(None, JNull, JStr("review window expired"))
    else match response
      case JStr(s) =>
        var d := DecisionWord(s);
        Parsed(d, JNull, if d.Some? then JNull else JStr("unrecognized resume value " + s))
      case JObj(fields) =>
        var raw, reason := Get(fields, "decision"), Get(fields, "reason");
        var d := DecisionWord(Str(raw));
        Parsed(d, Get(fields, "actor"),
               if d.Some? || Truthy(reason) then reason else JStr("unrecognized resume decision " + Str(raw)))
      case _ => Parsed(None, JNull, JStr("unrecognized resume payload"))
  }

  /** The word an approving response spells, padded or in any case. */
  predicate SpellsApprove(s: string) {
    Normal(s) == "approve"
  }

  /** The responses that approve: the word itself, or an object whose decision is the word. */
  predicate Approves(response: Json) {
    || (response.JStr? && SpellsApprove(response.text))
    || (response.JObj? && Get(response.fields, "decision").JStr?
        && SpellsApprove(Get(response.fields, "decision").text))
  }

  lemma NormalHead(s: string)
    requires s != "" && !IsSpace(s[0]) && !IsSpace(s[|s| - 1])
    ensures Normal(s) == Lower(s)
  {
    assert "" + s + "" == s;
    assert Trimmed(s) && AllSpace("");
    NormalOf("", s, "");
  }

  /** Only text can spell the word: no number, flag, null or container renders as it. */
  lemma OnlyTextApproves(j: Json)
    requires !j.JStr?
    ensures Normal(Str(j)) != "approve"
  {
    match j
    case JInt(i) => IntNotApprove(i);
    case JNull => NormalHead("None"); assert Lower("None")[0] == 'n';
    case JBool(b) =>
      NormalHead("True"); NormalHead("False");
      assert Lower("True")[0] == 't' && Lower("False")[0] == 'f';
    case JReal(_) => NormalHead("<float>"); assert Lower("<float>")[0] == '<';
    case JArr(_) => NormalHead("<list>"); assert Lower("<list>")[0] == '<';
    case JObj(_) => NormalHead("<dict>"); assert Lower("<dict>")[0] == '<';
  }

  lemma {:induction false} NatTextEnds(n: nat)
    ensures var s := NatText(n); '0' <= s[|s| - 1] <= '9'
  {
  }

  lemma IntNotApprove(i: int)
    ensures Normal(IntText(i)) != "approve"
  {
    NatTextEnds(if i < 0 then -i else i);
    NormalHead(IntText(i));
    assert Lower(IntText(i))[0] == IntText(i)[0];
  }

  lemma SentinelSpellsNothing()
    ensures !SpellsApprove(SENTINEL) && Normal(SENTINEL) != "reject"
  {
    NormalHead(SENTINEL);
    assert Lower(SENTINEL)[0] == '_';
  }

  lemma ApprovesParsed(response: Json)
    ensures ParseDecision(response).approve == Some(true) <==> Approves(response)
  {
    SentinelSpellsNothing();
    if response.JObj? && !Get(response.fields, "decision").JStr? {
      OnlyTextApproves(Get(response.fields, "decision"));
    }
  }

  /** The blanks an answer may have around it, one by one. */
  predicate Blank(c: char) {
    c in {'\t', '\n', '\U{000B}', '\U{000C}', '\r', '\U{001C}', '\U{001D}', '\U{001E}', '\U{001F}', ' ',
          '\U{0085}', '\U{00A0}', '\U{1680}', '\U{2000}', '\U{2001}', '\U{2002}', '\U{2003}', '\U{2004}',
          '\U{2005}', '\U{2006}', '\U{2007}', '\U{2008}', '\U{2009}', '\U{200A}', '\U{2028}', '\U{2029}',
          '\U{202F}', '\U{205F}', '\U{3000}'}
  }

  predicate OnlyBlanks(s: string) {
    forall k :: 0 <= k < |s| ==> Blank(s[k])
  }

  /** The word, each letter in either case. */
  predicate ApproveInAnyCase(w: string) {
    |w| == 7 && forall k :: 0 <= k < 7 ==> w[k] in {"approve"[k], "APPROVE"[k]}
  }

  /** Blanks, the word, blanks. */
  ghost predicate SpellsOutApprove(s: string) {
    exists left, w, right :: s == left + w + right && OnlyBlanks(left) && ApproveInAnyCase(w) && OnlyBlanks(right)
  }

  /** The responses that spell it: the text itself, or the text of an object's decision. */
  ghost predicate AnswersApprove(response: Json) {
    || (response.JStr? && SpellsOutApprove(response.text))
    || (response.JObj? && "decision" in response.fields && response.fields["decision"].JStr?
        && SpellsOutApprove(response.fields["decision"].text))
  }

  lemma BlankIsSpace(c: char)
    ensures Blank(c) <==> IsSpace(c)
  {
  }

  lemma BlanksAreSpace(s: string)
    ensures OnlyBlanks(s) <==> AllSpace(s)
  {
    forall k | 0 <= k < |s| {
      BlankIsSpace(s[k]);
    }
  }

  lemma LowerLetter(c: char, k: nat)
    requires k < 7
    ensures LowerChar(c) == "approve"[k] <==> c in {"approve"[k], "APPROVE"[k]}
  {
    assert "approve" == ['a', 'p', 'p', 'r', 'o', 'v', 'e'];
    assert "APPROVE" == ['A', 'P', 'P', 'R', 'O', 'V', 'E'];
  }

  lemma LowerApprove(w: string)
    ensures Lower(w) == "approve" <==> ApproveInAnyCase(w)
  {
    if |w| == 7 {
      forall k | 0 <= k < 7
        ensures Lower(w)[k] == "approve"[k] <==> w[k] in {"approve"[k], "APPROVE"[k]}
      {
        LowerLetter(w[k], k);
      }
      if ApproveInAnyCase(w) {
        assert Lower(w) == "approve";
      }
    }
  }

  lemma ApproveSpelled(s: string)
    ensures Normal(s) == "approve" <==> SpellsOutApprove(s)
  {
    NormalExactly(s, "approve");
    if core :| Pads(s, core) && Lower(core) == "approve" {
      var left, right :| AllSpace(left) && AllSpace(right) && s == left + core + right;
      LowerApprove(core);
      BlanksAreSpace(left);
      BlanksAreSpace(right);
      assert SpellsOutApprove(s);
    }
    if left, w, right :| s == left + w + right && OnlyBlanks(left) && ApproveInAnyCase(w) && OnlyBlanks(right) {
      LowerApprove(w);
      BlanksAreSpace(left);
      BlanksAreSpace(right);
      assert Pads(s, w);
    }
  }

  /** Exactly the responses that normalise to an approval, character by character. */
  lemma ApprovalParsed(response: Json)
    ensures ParseDecision(response).approve == Some(true) <==> AnswersApprove(response)
  {
    ApprovesParsed(response);
    if response.JStr? {
      ApproveSpelled(response.text);
    } else if response.JObj? && Get(response.fields, "decision").JStr? {
      ApproveSpelled(Get(response.fields, "decision").text);
    }
  }

  datatype Outcome = Outcome(state: ReviewState, result: ControlResult)

  function By(actor: Json): string {
    if Truthy(actor) then " by " + Str(actor) else ""
  }

  function Resolved(state: ReviewState, verdict: Verdict, reason: string, r: ControlResult): Outcome {
    Outcome(state, ControlResult(verdict, r.provider, reason, r.evidence, r.policyId, r.decisionId, false, None, None))
  }

  /** None stands for the exception a deadline that is not a time raises. */
  function Resolve(h: Hold, response: Json, r: ControlResult, now: int): Option<Outcome> {
    var p := ParseDecision(response);
    if FromIso(h.deadline).None? then None
    else if Expired(h, now) then
      Some(Resolved(TimedOut, Deny,
                    "review window expired at " + h.deadline + "; an unanswered hold resolves to deny", r))
    else if p.approve == Some(true) then
      Some(Resolved(Approved, Allow, "approved" + By(p.actor) + " after review: " + r.reason, r))
    else
      Some(Resolved(Rejected, Deny, "rejected" + By(p.actor) + " after review: "
                                    + (if Truthy(p.reason) then Str(p.reason) else "no reason given"), r))
  }

  /** Resolution is exact. With a readable deadline: approved exactly when in time and the
      response approves, timed out exactly when late, rejected otherwise; the verdict is an
      allow exactly for an approval. The result is valid, is no outage, and keeps the
      provider, evidence, rule and audit id of the result it resolves. */
  lemma ResolveExact(h: Hold, response: Json, r: ControlResult, now: int)
    ensures Resolve(h, response, r, now).Some? <==> FromIso(h.deadline).Some?
    ensures FromIso(h.deadline).Some? ==>
              var late := now > FromIso(h.deadline).value;
              var o := Resolve(h, response, r, now).value;
              && (o.state == TimedOut <==> late)
              && (o.state == Approved <==> !late && Approves(response))
              && (o.state == Rejected <==> !late && !Approves(response))
              && (o.result.verdict == Allow <==> o.state == Approved)
              && (o.result.verdict == Deny <==> o.state != Approved)
              && ValidResult(o.result) && !o.result.unavailable
              && o.result.provider == r.provider && o.result.evidence == r.evidence
              && o.result.policyId == r.policyId && o.result.decisionId == r.decisionId
  {
    ApprovesParsed(response);
  }

  /** In time, a hold resolves to approved exactly for the responses that spell the word out, and to
      rejected for all others. */
  lemma ApprovalSpelled(h: Hold, response: Json, r: ControlResult, now: int)
    requires FromIso(h.deadline).Some? && now <= FromIso(h.deadline).value
    ensures Resolve(h, response, r, now).Some?
    ensures Resolve(h, response, r, now).value.state == Approved <==> AnswersApprove(response)
    ensures Resolve(h, response, r, now).value.state == Rejected <==> !AnswersApprove(response)
  {
    ApprovalParsed(response);
  }

  // ---------------------------------------------------------------- what a resolution says

  /** What an answer says in text under a key. */
  function Said(response: Json, key: string): Option<string> {
    if response.JObj? && key in response.fields && response.fields[key].JStr? && response.fields[key].text != ""
    then Some(response.fields[key].text) else None
  }

  /** The answer says nothing under a key. */
  predicate Silent(response: Json, key: string) {
    response.JObj? ==> key !in response.fields || Void(response.fields[key])
  }

  /** An approval gives the actor, if the answer names one, and policy's reason. */
  predicate ApprovalGives(reason: string, response: Json, policyReason: string) {
    var who := Said(response, "actor");
    && (Silent(response, "actor") ==> reason == "approved after review: " + policyReason)
    && (who.Some? ==> reason == "approved by " + who.value + " after review: " + policyReason)
  }

  /** A rejection gives the actor, if the answer names one, and the reviewer's reason. */
  predicate RejectionGives(reason: string, response: Json) {
    var who, why := Said(response, "actor"), Said(response, "reason");
    && (Silent(response, "actor") && why.Some? ==> reason == "rejected after review: " + why.value)
    && (who.Some? && why.Some? ==> reason == "rejected by " + who.value + " after review: " + why.value)
    && (response == JStr("reject") ==> reason == "rejected after review: no reason given")
  }

  /** The reason on a resolved result. */
  predicate ReasonGiven(reason: string, state: ReviewState, deadline: string, response: Json, policyReason: string) {
    match state
    case TimedOut => reason == "review window expired at " + deadline + "; an unanswered hold resolves to deny"
    case Approved => ApprovalGives(reason, response, policyReason)
    case Rejected => RejectionGives(reason, response)
    case Pending => false
  }

  lemma ParsedSays(response: Json)
    ensures var p, who, why := ParseDecision(response), Said(response, "actor"), Said(response, "reason");
            && (Silent(response, "actor") ==> By(p.actor) == "")
            && (who.Some? ==> By(p.actor) == " by " + who.value)
            && (why.Some? ==> p.reason == JStr(why.value))
  {
    if response.JObj? && "actor" in response.fields {
      VoidIsFalsy(response.fields["actor"]);
    }
  }

  lemma RejectSaysNothing()
    ensures ParseDecision(JStr("reject")) == Parsed(Some(false), JNull, JNull)
  {
    NormalHead("reject");
    assert Lower("reject") == "reject";
    assert SENTINEL[0] != "reject"[0] && "approve"[0] != "reject"[0];
  }

  lemma JoinWho(word: string, who: string, rest: string)
    ensures word + (" by " + who) + " after review: " + rest == word + " by " + who + " after review: " + rest
    ensures word + "" + " after review: " + rest == word + " after review: " + rest
  {
    assert word + (" by " + who) == word + " by " + who;
    assert word + "" == word;
  }

  lemma Words()
    ensures "approved" + " by " == "approved by " && "rejected" + " by " == "rejected by "
    ensures "approved" + " after review: " == "approved after review: "
    ensures "rejected" + " after review: " == "rejected after review: "
  {
  }

  lemma DecidedSays(word: string, response: Json, rest: string)
    requires word == "approved" || word == "rejected"
    ensures var who, reason := Said(response, "actor"),
                               word + By(ParseDecision(response).actor) + " after review: " + rest;
            && (Silent(response, "actor") ==> reason == word + " after review: " + rest)
            && (who.Some? ==> reason == word + " by " + who.value + " after review: " + rest)
  {
    ParsedSays(response);
    JoinWho(word, Said(response, "actor").GetOr(""), rest);
  }

  lemma ApprovalSays(response: Json, policyReason: string)
    ensures ApprovalGives("approved" + By(ParseDecision(response).actor) + " after review: " + policyReason,
                          response, policyReason)
  {
    Words();
    DecidedSays("approved", response, policyReason);
  }

  /** A rejection for any given reason. */
  lemma RejectedText(response: Json, rest: string)
    ensures var who, reason := Said(response, "actor"),
                               "rejected" + By(ParseDecision(response).actor) + " after review: " + rest;
            && (Silent(response, "actor") ==> reason == "rejected after review: " + rest)
            && (who.Some? ==> reason == "rejected by " + who.value + " after review: " + rest)
  {
    Words();
    DecidedSays("rejected", response, rest);
  }

  lemma BareRejection()
    ensures "rejected" + "" + " after review: " + "no reason given" == "rejected after review: no reason given"
  {
    assert "rejected" + "" == "rejected";
  }

  lemma RejectionSays(response: Json)
    ensures var p := ParseDecision(response);
            RejectionGives("rejected" + By(p.actor) + " after review: "
                           + (if Truthy(p.reason) then Str(p.reason) else "no reason given"), response)
  {
    var p := ParseDecision(response);
    if response == JStr("reject") {
      RejectSaysNothing();
      BareRejection();
    } else {
      ParsedSays(response);
      RejectedText(response, if Truthy(p.reason) then Str(p.reason) else "no reason given");
    }
  }

  /** What a resolved result says, for every answer and moment. */
  lemma ReasonExact(h: Hold, response: Json, r: ControlResult, now: int)
    requires Resolve(h, response, r, now).Some?
    ensures var o := Resolve(h, response, r, now).value;
            ReasonGiven(o.result.reason, o.state, h.deadline, response, r.reason)
  {
    ApprovalSays(response, r.reason);
    RejectionSays(response);
  }

  /** Expiry is final: a hold that timed out once times out at every later moment, whatever
      the response. */
  lemma TimeoutFinal(h: Hold, response: Json, later: Json, r: ControlResult, now: int, then': int)
    requires now <= then'
    requires Resolve(h, response, r, now).Some? && Resolve(h, response, r, now).value.state == TimedOut
    ensures Resolve(h, later, r, then').Some? && Resolve(h, later, r, then').value.state == TimedOut
  {
    ResolveExact(h, response, r, now);
    ResolveExact(h, later, r, then');
  }

  // ---------------------------------------------------------------- which deadline governs

  /** The hold a response is resolved against: the one decoded from the response itself when
      there is one, else the hold at hand. */
  function Governing(h: Hold, response: Json): Hold {
    FromPayload(response).GetOr(h)
  }

  /** An approval that carries a copy of a hold decodes as that copy. */
  function ApprovalWith(copy: Hold): Json {
    JObj(map["decision" := JStr("approve"), "agentcontrol" := ToPayload(copy).fields["agentcontrol"]])
  }

  lemma ApprovalWithCopy(copy: Hold)
    ensures FromPayload(ApprovalWith(copy)) == Some(copy)
  {
    assert "decision"[0] != "agentcontrol"[0];
    RoundTrip(copy);
    assert Get(ApprovalWith(copy).fields, "agentcontrol") == Get(ToPayload(copy).fields, "agentcontrol");
  }

  lemma ApprovalWithApproves(copy: Hold)
    ensures Approves(ApprovalWith(copy))
  {
    assert "decision"[0] != "agentcontrol"[0];
    NormalHead("approve");
    assert Lower("approve") == "approve";
  }
}
