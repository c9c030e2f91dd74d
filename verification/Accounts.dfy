/** What is written down about a call, and what the agent and the reviewer are told, is what the
    provider, the reviewer and the tool said: holds, records, messages and spans traced to the events
    of the run. */
module Accounts {
  import opened Text
  import opened Json
  import opened Domain
  import opened Opa
  import opened Review
  import opened Telemetry
  import opened Spans
  import opened Protocol
  import opened Cells
  import opened Locality
  import opened Histories
  import opened Deadlines

  // ---------------------------------------------------------------- the answer at hand

  /** The n-th event is a pass over t that asked the provider and was answered r. */
  predicate Answers(cfg: Config, es: seq<Event>, t: Task, n: nat, r: ControlResult) {
    Asks(cfg, es, t, n) && Authorized(cfg, es[n].env) == Answered(r)
  }

  lemma HeldEntry(c: Cell, i: Intent, r: ControlResult, h: Hold, source: Source, env: Env)
    requires source.Memory? ==> c.entry == Some(Entry(r, h))
    ensures var c' := HeldPass(c, i, r, h, source, env); c'.entry.Some? ==> c'.entry == Some(Entry(r, h))
  {
  }

  lemma PassEntry(cfg: Config, c: Cell, i: Intent, env: Env)
    requires CellPass(cfg, c, i, env).entry.Some?
    ensures if c.done.None? && c.entry.None?
            then Authorized(cfg, env) == Answered(CellPass(cfg, c, i, env).entry.value.result)
            else CellPass(cfg, c, i, env).entry == c.entry
  {
    match CellTurn(cfg, c, i, env)
    case Reviewing(c1, r, h, source) => HeldEntry(c1, i, r, h, source, env);
    case _ =>
  }

  lemma ApplyEntry(cfg: Config, c: Cell, e: Event, t: Task)
    requires CellApply(cfg, c, e, t).entry.Some?
    ensures if Consults(c, e, t) then Authorized(cfg, e.env) == Answered(CellApply(cfg, c, e, t).entry.value.result)
            else CellApply(cfg, c, e, t).entry == c.entry
  {
    if About(e, t) && (e.Resume? ==> c.slot.Some?) {
      EventTakes(cfg, c, e, t);
      PassEntry(cfg, Meeting(c, e), e.intent, e.env);
    }
  }

  /** The result in memory is the answer the last asking pass got. */
  lemma {:induction false} EntryFrom(cfg: Config, es: seq<Event>, t: Task) returns (n: nat)
    requires CellRun(cfg, es, t).entry.Some?
    ensures n < |es| && Consults(CellRun(cfg, es[..n], t), es[n], t)
    ensures Authorized(cfg, es[n].env) == Answered(CellRun(cfg, es, t).entry.value.result)
    ensures CellRun(cfg, es, t).replies == CellRun(cfg, es[..n], t).replies + [es[n].env.reply]
  {
    var init, e := es[..|es| - 1], es[|es| - 1];
    ApplyEntry(cfg, CellRun(cfg, init, t), e, t);
    ApplyReplies(cfg, CellRun(cfg, init, t), e, t);
    if Consults(CellRun(cfg, init, t), e, t) {
      n := |es| - 1;
    } else {
      n := EntryFrom(cfg, init, t);
      assert es[..n] == init[..n];
    }
  }

  // ---------------------------------------------------------------- the closing record

  /** What a denied agent reads: the reason on record, and the rule if there is one. */
  predicate TellsAgent(message: Option<string>, r: ControlResult) {
    if r.policyId.Some? && r.policyId.value != ""
    then message == Some("AgentControl denied this tool call. " + r.reason + " (policy: " + r.policyId.value + ")")
    else message == Some("AgentControl denied this tool call. " + r.reason)
  }

  /** A call that ended without a review: its record is the answer as it came. */
  predicate ClosedDirectly(rec: Record, r: ControlResult) {
    rec.result == r && rec.state == None && rec.deadline == None && !rec.replay
  }

  /** The state a review is recorded in. */
  predicate StateOf(state: Option<ReviewState>, e: Ending) {
    && (e == RanApproved ==> state == Some(Approved))
    && (e == DeniedByHuman ==> state == Some(Rejected))
    && (e == DeniedByTimeout ==> state == Some(TimedOut))
  }

  /** A call that ended by its review: rule, evidence and audit id of the answer under review, and the
      reason and state of the resolution. */
  predicate ClosedByReview(rec: Record, d: Done, r: ControlResult) {
    && d.deadline.Some? && d.response.Some? && rec.deadline == d.deadline && StateOf(rec.state, d.ending)
    && rec.result.provider == r.provider && rec.result.evidence == r.evidence
    && rec.result.policyId == r.policyId && rec.result.decisionId == r.decisionId && !rec.result.unavailable
    && (rec.result.verdict == if d.ending == RanApproved then Allow else Deny)
    && rec.state.Some?
    && ReasonGiven(rec.result.reason, rec.state.value, GoverningDeadline(d), d.response.value, r.reason)
  }

  /** A resolution is marked as a replay exactly if memory had lost the hold, and the pending record is
      then replayed right before it. */
  predicate Marked(log: seq<Record>, d: Done, lost: bool) {
    log != [] && ByReview(d.ending) ==>
      && (log[|log| - 1].replay <==> lost)
      && (lost ==> |log| > 1 && IsPending(log[|log| - 2]) && log[|log| - 2].replay)
  }

  /** The record that closes a call, and what the agent is told, in full: r is the answer the call was
      decided on. */
  predicate ClosedAs(d: Done, rec: Record, i: Intent, env: Env, r: ControlResult) {
    && rec.intent == i
    && (if ByReview(d.ending) then ClosedByReview(rec, d, r) else ClosedDirectly(rec, r))
    && (if d.ending in {Ran, RanUnauthorized, RanApproved} then d.message == None && rec.error == env.failure
        else TellsAgent(d.message, rec.result) && ErrorSays(rec.error, d.ending))
  }

  /** The error type each denial is recorded under, by its word. */
  predicate ErrorSays(error: Option<string>, e: Ending) {
    && (e == DeniedByRule ==> error == Some("agentcontrol.denied"))
    && (e == DeniedByOutage ==> error == Some("agentcontrol.policy_unavailable"))
    && (e == DeniedByHuman ==> error == Some("agentcontrol.review_rejected"))
    && (e == DeniedByTimeout ==> error == Some("agentcontrol.review_timeout"))
  }

  lemma DenyTells(r: ControlResult)
    ensures TellsAgent(Some(DenyMessage(r)), r)
  {
    if r.policyId.GetOr("") != "" {
      var head, tail := "AgentControl denied this tool call. ", " (policy: " + r.policyId.value + ")";
      assert r.reason + " (policy: " + r.policyId.value + ")" == r.reason + tail;
      assert head + (r.reason + tail) == head + r.reason + tail;
      assert head + r.reason + " (policy: " + r.policyId.value + ")" == head + r.reason + tail;
    }
  }

  lemma SettledClosedAs(i: Intent, h: Hold, response: Json, r: ControlResult, now: int, replay: bool, env: Env)
    requires Resolve(Governing(h, response), response, r, now).Some?
    ensures var o := Resolve(Governing(h, response), response, r, now).value;
            ClosedAs(SettledDone(h, response, o, now), SettledRecord(i, h, o, replay, env), i, env, r)
            && SettledRecord(i, h, o, replay, env).replay == replay
  {
    var g := Governing(h, response);
    ResolveExact(g, response, r, now);
    ReasonExact(g, response, r, now);
    DenyTells(Resolve(g, response, r, now).value.result);
    ErrorTypesDistinct();
  }

  lemma HeldClosedAs(c: Cell, i: Intent, r: ControlResult, h: Hold, source: Source, env: Env)
    requires c.done.None?
    ensures var c' := HeldPass(c, i, r, h, source, env);
            c'.done.Some? ==>
              && c'.log != [] && ClosedAs(c'.done.value, c'.log[|c'.log| - 1], i, env, r)
              && Marked(c'.log, c'.done.value, !source.Memory?)
  {
    if c.response.Some? && Resolve(Governing(h, c.response.value), c.response.value, r, c.now).Some? {
      SettledClosedAs(i, h, c.response.value, r, c.now, !source.Memory?, env);
    }
  }

  lemma DirectClosedAs(c: Cell, i: Intent, r: ControlResult, env: Env)
    requires c.done.None? && r.verdict in {Allow, Deny}
    ensures var c' := DirectPass(c, i, r, env);
            c'.done.Some? && c'.log != [] && ClosedAs(c'.done.value, c'.log[|c'.log| - 1], i, env, r)
            && !ByReview(c'.done.value.ending)
  {
    DenyTells(r);
    ErrorTypesDistinct();
  }

  /** The answer a pass decides on: the one in memory, else the one it is given. */
  predicate DecidesOn(cfg: Config, c: Cell, env: Env, r: ControlResult) {
    if c.entry.Some? then r == c.entry.value.result else Authorized(cfg, env) == Answered(r)
  }

  lemma PassClosedAs(cfg: Config, c: Cell, i: Intent, env: Env) returns (r: ControlResult)
    requires c.done.None? && CellPass(cfg, c, i, env).done.Some?
    ensures DecidesOn(cfg, c, env, r)
    ensures var c' := CellPass(cfg, c, i, env);
            && c'.log != [] && ClosedAs(c'.done.value, c'.log[|c'.log| - 1], i, env, r)
            && Marked(c'.log, c'.done.value, c.entry.None?)
  {
    Classified(cfg.failMode, env.reply, Collected(env.gathered));
    var turn := CellTurn(cfg, c, i, env);
    r := turn.result;
    match turn
    case Straight(c1, _) => DirectClosedAs(c1, i, r, env);
    case Reviewing(c1, _, h, source) => HeldClosedAs(c1, i, r, h, source, env);
  }

  lemma EventClosedAs(cfg: Config, c: Cell, e: Event, t: Task) returns (r: ControlResult)
    requires c.done.None? && CellApply(cfg, c, e, t).done.Some?
    ensures About(e, t) && DecidesOn(cfg, c, e.env, r)
    ensures var c' := CellApply(cfg, c, e, t);
            && c'.log != [] && ClosedAs(c'.done.value, c'.log[|c'.log| - 1], e.intent, e.env, r)
            && Marked(c'.log, c'.done.value, c.entry.None?)
  {
    ApplyEnds(cfg, c, e, t);
    EventTakes(cfg, c, e, t);
    r := PassClosedAs(cfg, Meeting(c, e), e.intent, e.env);
    assert DecidesOn(cfg, c, e.env, r);
  }

  /** In the run of one call: the pass that ended it, and the record it closed with. */
  /** The last record of the call's view and the message to the agent, for a pass of i under env decided
      on r. */
  predicate RecordTells(c: Cell, i: Intent, env: Env, r: ControlResult, lost: bool) {
    && c.done.Some? && c.log != []
    && ClosedAs(c.done.value, c.log[|c.log| - 1], i, env, r)
    && Marked(c.log, c.done.value, lost)
  }

  predicate LastIs(replies: seq<Transport>, reply: Transport) {
    replies != [] && replies[|replies| - 1] == reply
  }

  lemma CellCloses(cfg: Config, es: seq<Event>, t: Task) returns (j: nat, r: ControlResult, lost: bool)
    requires CellRun(cfg, es, t).done.Some?
    ensures j < |es| && EndsOn(CellRun(cfg, es[..j], t), es[j], t, CellRun(cfg, es, t).done.value)
    ensures lost == CellRun(cfg, es[..j], t).entry.None? && DecidesOn(cfg, CellRun(cfg, es[..j], t), es[j].env, r)
    ensures RecordTells(CellRun(cfg, es, t), es[j].intent, es[j].env, r, lost)
    ensures CellRun(cfg, es, t).replies ==
            if lost then CellRun(cfg, es[..j], t).replies + [es[j].env.reply] else CellRun(cfg, es[..j], t).replies
  {
    j := EndFrom(cfg, es, t);
    lost := CellRun(cfg, es[..j], t).entry.None?;
    r := EventClosedAs(cfg, CellRun(cfg, es[..j], t), es[j], t);
  }

  /** The pass that got the answer a call was decided on. */
  lemma AskedFor(cfg: Config, es: seq<Event>, t: Task, j: nat, r: ControlResult, lost: bool) returns (n: nat)
    requires Good(es, t) && j < |es| && About(es[j], t)
    requires var c := CellRun(cfg, es[..j], t);
             && c.done.None? && (es[j].Resume? ==> c.slot.Some?) && DecidesOn(cfg, c, es[j].env, r)
             && lost == c.entry.None?
    ensures n <= j && Answers(cfg, es, t, n, r) && (n == j <==> lost)
    ensures !lost ==> LastIs(CellRun(cfg, es[..j], t).replies, es[n].env.reply)
  {
    PrefixLocal(cfg, es, t, j);
    if lost {
      n := j;
    } else {
      n := EntryFrom(cfg, es[..j], t);
      assert es[..j][..n] == es[..n];
      PrefixLocal(cfg, es, t, n);
    }
  }

  lemma EndsHere(cfg: Config, es: seq<Event>, t: Task, j: nat)
    requires Good(es, t) && CellRun(cfg, es, t).done.Some?
    requires j < |es| && EndsOn(CellRun(cfg, es[..j], t), es[j], t, CellRun(cfg, es, t).done.value)
    ensures Ends(cfg, es, t, CellRun(cfg, es, t).done.value, j)
    ensures IdOf(t) in Run(cfg, es[..j]).pending <==> CellRun(cfg, es[..j], t).entry.Some?
  {
    PrefixLocal(cfg, es, t, j);
    GoodPrefix(es, t, j);
    UnendedUnrun(cfg, es[..j], t);
    assert Look(Run(cfg, es[..j]).pending, IdOf(t)) == View(Run(cfg, es[..j]), t).entry;
  }

  lemma CellTold(cfg: Config, es: seq<Event>, t: Task) returns (n: nat, j: nat, r: ControlResult, lost: bool)
    requires Good(es, t) && CellRun(cfg, es, t).done.Some?
    ensures j < |es| && EndsOn(CellRun(cfg, es[..j], t), es[j], t, CellRun(cfg, es, t).done.value)
    ensures lost == CellRun(cfg, es[..j], t).entry.None?
    ensures n <= j && Answers(cfg, es, t, n, r) && (n == j <==> lost)
    ensures LastIs(CellRun(cfg, es, t).replies, es[n].env.reply)
    ensures RecordTells(CellRun(cfg, es, t), es[j].intent, es[j].env, r, lost)
  {
    j, r, lost := CellCloses(cfg, es, t);
    n := AskedFor(cfg, es, t, j, r, lost);
  }

  lemma DoneSeen(cfg: Config, es: seq<Event>, t: Task)
    requires Good(es, t)
    ensures View(Run(cfg, es), t) == CellRun(cfg, es, t)
    ensures t in Run(cfg, es).done <==> CellRun(cfg, es, t).done.Some?
  {
    RunLocal(cfg, es, t);
    assert Look(Run(cfg, es).done, t) == CellRun(cfg, es, t).done;
  }

  /** Every decided call of every run: the j-th event is the pass that ended it, the n-th the one that
      got the answer it was decided on, which is also the provider's last, the same one exactly if
      memory had lost the hold or never had one; and all that its closing record and the message to
      the agent say. */
  lemma ClosingTells(cfg: Config, es: seq<Event>, t: Task) returns (n: nat, j: nat, r: ControlResult, lost: bool)
    requires Good(es, t) && t in Run(cfg, es).done
    ensures Ends(cfg, es, t, View(Run(cfg, es), t).done.value, j)
    ensures n <= j && Answers(cfg, es, t, n, r) && (n == j <==> lost)
    ensures lost <==> IdOf(t) !in Run(cfg, es[..j]).pending
    ensures LastIs(View(Run(cfg, es), t).replies, es[n].env.reply)
    ensures RecordTells(View(Run(cfg, es), t), es[j].intent, es[j].env, r, lost)
  {
    DoneSeen(cfg, es, t);
    n, j, r, lost := CellTold(cfg, es, t);
    EndsHere(cfg, es, t, j);
  }

  /** The decision behind an ending, where the provider gave one. */
  function DecisionOf(e: Ending): Verdict {
    match e
    case Ran => Allow
    case DeniedByRule => Deny
    case _ => Verdict.Review
  }

  /** The record says what the reply to this pass said: in full without a review, and its rule, audit
      id and evidence after one. */
  predicate OnRecord(rec: Record, e: Ending, r: ControlResult, env: Env) {
    && Tells(r, env.reply, DecisionOf(e), Collected(env.gathered))
    && (!ByReview(e) ==> rec.result == r)
    && rec.result.policyId == r.policyId && rec.result.decisionId == r.decisionId
    && rec.result.evidence == r.evidence
  }

  lemma FactsDecision(mode: FailMode, d: Done, replies: seq<Transport>, execs: seq<Exec>)
    requires Facts(mode, d, replies, execs) && d.ending !in {RanUnauthorized, DeniedByOutage}
    ensures replies != [] && Decides(replies[|replies| - 1], DecisionOf(d.ending))
  {
  }

  lemma LastReplyDecides(cfg: Config, es: seq<Event>, t: Task)
    ensures var c := CellRun(cfg, es, t);
            c.done.Some? && c.done.value.ending !in {RanUnauthorized, DeniedByOutage} ==>
              c.replies != [] && Decides(c.replies[|c.replies| - 1], DecisionOf(c.done.value.ending))
  {
    RunKeeps(cfg, es, t);
    var c := CellRun(cfg, es, t);
    if c.done.Some? && c.done.value.ending !in {RanUnauthorized, DeniedByOutage} {
      FactsDecision(cfg.failMode, c.done.value, c.replies, c.execs);
    }
  }

  lemma RecordSays(cfg: Config, c: Cell, i: Intent, env: Env, r: ControlResult, lost: bool, asked: Env)
    requires RecordTells(c, i, env, r, lost) && Authorized(cfg, asked) == Answered(r)
    requires Decides(asked.reply, DecisionOf(c.done.value.ending))
    ensures OnRecord(c.log[|c.log| - 1], c.done.value.ending, r, asked)
  {
    AnswerTells(cfg.failMode, asked.reply, DecisionOf(c.done.value.ending), Collected(asked.gathered));
  }

  /** The call's last record says what its provider's last reply said. */
  predicate SaysReply(c: Cell, r: ControlResult, asked: Env) {
    && c.done.Some? && c.log != [] && LastIs(c.replies, asked.reply)
    && OnRecord(c.log[|c.log| - 1], c.done.value.ending, r, asked)
  }

  lemma CellSaysReply(cfg: Config, es: seq<Event>, t: Task) returns (n: nat, r: ControlResult)
    requires Good(es, t) && CellRun(cfg, es, t).done.Some?
    requires CellRun(cfg, es, t).done.value.ending !in {RanUnauthorized, DeniedByOutage}
    ensures Answers(cfg, es, t, n, r) && SaysReply(CellRun(cfg, es, t), r, es[n].env)
  {
    var j: nat, lost: bool;
    n, j, r, lost := CellTold(cfg, es, t);
    LastReplyDecides(cfg, es, t);
    RecordSays(cfg, CellRun(cfg, es, t), es[j].intent, es[j].env, r, lost, es[n].env);
  }

  /** What a reply said is on record: a call that ran or was denied on policy's word has the reason,
      rule and audit id of the provider's last reply on its closing record, with the evidence it was
      asked with; one that ended by review has that rule, audit id and evidence. */
  lemma RepliesOnRecord(cfg: Config, es: seq<Event>, t: Task) returns (n: nat, r: ControlResult)
    requires Good(es, t) && t in Run(cfg, es).done
    requires View(Run(cfg, es), t).done.value.ending !in {RanUnauthorized, DeniedByOutage}
    ensures Answers(cfg, es, t, n, r) && SaysReply(View(Run(cfg, es), t), r, es[n].env)
  {
    DoneSeen(cfg, es, t);
    n, r := CellSaysReply(cfg, es, t);
  }

  // ---------------------------------------------------------------- the hold a human is shown

  /** The rule a review reply names, as a hold keeps it. */
  predicate KeepsRule(rule: Json, block: map<string, Json>) {
    var given: Option<Json> := Look(block, "policy_id");
    match given
    case None => rule == JNull
    case Some(JNull) => rule == JNull
    case Some(JStr(s)) => rule == JStr(s)
    case Some(j) => rule == JStr(Str(j))
  }

  /** The hold shows the call it holds, what the reply gave as reason and rule, and when. */
  predicate HoldTells(cfg: Config, h: Hold, i: Intent, reply: Transport, now: int) {
    && i.threadId.Some? && i.toolCallId.Some?
    && h.holdId == i.threadId.value + ":" + i.toolCallId.value
    && h.tool == i.tool
    && (h.resource == if i.resource.Some? then JStr(i.resource.value) else JNull)
    && ResultBlock(reply).Some?
    && GivesReason(h.reason, ResultBlock(reply).value, Verdict.Review)
    && KeepsRule(h.policyId, ResultBlock(reply).value)
    && FromIso(h.requestedAt) == Some(now)
    && FromIso(h.deadline) == Some(now + EffectiveWindow(cfg, reply))
  }

  lemma BuiltHoldTells(cfg: Config, i: Intent, env: Env, now: int)
    requires WellFormed(i) && Decides(env.reply, Verdict.Review)
    ensures Authorized(cfg, env).Answered?
    ensures HoldTells(cfg, BuildHold(i, Authorized(cfg, env).result, cfg.fallback, now), i, env.reply, now)
  {
    AnswerTells(cfg.failMode, env.reply, Verdict.Review, Collected(env.gathered));
    ReviewWindow(cfg, i, env, now);
    ParseIntText(now);
    ParseIntText(now + EffectiveWindow(cfg, env.reply));
  }

  /** A pass over a call that is not held yet: if it holds it, the hold tells. */
  lemma PassOpensHold(cfg: Config, c: Cell, i: Intent, env: Env)
    requires WellFormed(i) && Places(c, Key(i)) && c.slot.None? && CellPass(cfg, c, i, env).slot.Some?
    ensures c.done.None? && c.entry.None? && Decides(env.reply, Verdict.Review)
    ensures SlotHold(CellPass(cfg, c, i, env).slot).Some?
    ensures HoldTells(cfg, SlotHold(CellPass(cfg, c, i, env).slot).value, i, env.reply, c.now)
  {
    ReviewWasDecided(cfg, env);
    var turn := CellTurn(cfg, c, i, env);
    BuiltHoldTells(cfg, i, env, c.now);
    RoundTrip(turn.hold);
  }

  lemma HeldKeepsHold(c: Cell, i: Intent, r: ControlResult, h: Hold, source: Source, env: Env)
    requires c.slot == Some(ToPayload(h))
    ensures var c' := HeldPass(c, i, r, h, source, env); c'.slot == c.slot || c'.done.Some?
  {
  }

  /** A pass over a held call that does not rebuild the hold keeps it, or ends the call. */
  lemma PassKeepsHold(cfg: Config, c: Cell, i: Intent, env: Env)
    requires CallInv(cfg, c, Key(i)) && Agreed(c) && c.slot.Some? && !PassRebuilds(cfg, c, env)
    ensures var c' := CellPass(cfg, c, i, env); c'.slot == c.slot || c'.done.Some?
  {
    TurnPlaced(cfg, c, i, env);
    match CellTurn(cfg, c, i, env)
    case Idle(_) =>
    case Straight(_, _) =>
    case Reviewing(c1, r, h, source) => HeldKeepsHold(c1, i, r, h, source, env);
  }

  lemma ApplyKeepsHold(cfg: Config, c: Cell, e: Event, t: Task)
    requires CallInv(cfg, c, t) && Agreed(c) && c.slot.Some? && !Slips(cfg, Rebuilding, c, e, t)
    ensures var c' := CellApply(cfg, c, e, t); c'.slot == c.slot || c'.done.Some?
  {
    if About(e, t) {
      EventTakes(cfg, c, e, t);
      PassKeepsHold(cfg, Meeting(c, e), e.intent, e.env);
    }
  }

  lemma RunUnrebuilt(cfg: Config, es: seq<Event>, t: Task)
    requires NeverIn(cfg, Rebuilding, es, t)
    ensures CallInv(cfg, CellRun(cfg, es, t), t) && Agreed(CellRun(cfg, es, t))
  {
    RunKeeps(cfg, es, t);
    RebuildsNone(cfg, Straying, es, t);
    RunAgrees(cfg, es, t);
  }

  lemma EventOpensHold(cfg: Config, c: Cell, e: Event, t: Task)
    requires GoodEvent(e, t) && Places(c, t) && c.slot.None? && CellApply(cfg, c, e, t).slot.Some?
    ensures Consults(c, e, t) && Decides(e.env.reply, Verdict.Review)
    ensures var slot := CellApply(cfg, c, e, t).slot;
            SlotHold(slot).Some? && HoldTells(cfg, SlotHold(slot).value, e.intent, e.env.reply, c.now)
  {
    PassOpensHold(cfg, c, e.intent, e.env);
  }

  /** The stored hold is the one the pass that opened it built. */
  lemma {:induction false} StoredFrom(cfg: Config, es: seq<Event>, t: Task) returns (n: nat)
    requires Good(es, t) && NeverIn(cfg, Rebuilding, es, t) && CellRun(cfg, es, t).slot.Some?
    ensures n < |es| && Consults(CellRun(cfg, es[..n], t), es[n], t) && CellRun(cfg, es[..n], t).slot.None?
    ensures Decides(es[n].env.reply, Verdict.Review) && SlotHold(CellRun(cfg, es, t).slot).Some?
    ensures HoldTells(cfg, SlotHold(CellRun(cfg, es, t).slot).value, es[n].intent, es[n].env.reply,
                      CellRun(cfg, es[..n], t).now)
  {
    var last := |es| - 1;
    var init, e := es[..last], es[last];
    var c := CellRun(cfg, init, t);
    RunUnrebuilt(cfg, init, t);
    assert GoodEvent(e, t);
    if c.slot.Some? {
      GoodPrefix(es, t, last);
      RunKeeps(cfg, es, t);
      ApplyKeepsHold(cfg, c, e, t);
      n := StoredFrom(cfg, init, t);
      assert es[..n] == init[..n];
    } else {
      n := last;
      EventOpensHold(cfg, c, e, t);
    }
  }

  /** What the human is asked to approve. While no pass rebuilt the hold, the stored payload shows the
      tool and resource of the call, and the reason, rule, moment and deadline of the first pass that
      was answered with a review and held it. */
  lemma StoredHoldTells(cfg: Config, es: seq<Event>, t: Task) returns (n: nat)
    requires Good(es, t) && Never(cfg, Rebuilding, es, t) && Stored(Run(cfg, es).board, t).Some?
    ensures Asks(cfg, es, t, n) && Stored(Run(cfg, es[..n]).board, t).None?
    ensures Decides(es[n].env.reply, Verdict.Review)
    ensures var h := FromPayload(Stored(Run(cfg, es).board, t).value);
            h.Some? && HoldTells(cfg, h.value, es[n].intent, es[n].env.reply, Run(cfg, es[..n]).now)
  {
    RunLocal(cfg, es, t);
    NeverInside(cfg, Rebuilding, es, t);
    n := StoredFrom(cfg, es, t);
    PrefixLocal(cfg, es, t, n);
  }

  lemma {:induction false} RunKeepsHold(cfg: Config, es: seq<Event>, more: seq<Event>, t: Task)
    requires NeverIn(cfg, Rebuilding, es + more, t) && CellRun(cfg, es, t).slot.Some?
    ensures var c, c' := CellRun(cfg, es, t), CellRun(cfg, es + more, t); c'.slot == c.slot || c'.done.Some?
  {
    if more == [] {
      assert es + more == es;
    } else {
      var init, e := es + more[..|more| - 1], more[|more| - 1];
      assert es + more == init + [e];
      NeverInPrefix(cfg, Rebuilding, init, [e], t);
      NeverInSplits(cfg, Rebuilding, init, e, t);
      RunKeepsHold(cfg, es, more[..|more| - 1], t);
      RunUnrebuilt(cfg, init, t);
      CellRunStep(cfg, init, e, t);
      if CellRun(cfg, init, t).done.Some? {
        StaysOver(cfg, CellRun(cfg, init, t), e, t);
      } else {
        ApplyKeepsHold(cfg, CellRun(cfg, init, t), e, t);
      }
    }
  }

  /** Hold stability: while no pass rebuilds it, a stored hold stays the same in every field, in the
      checkpoint and in memory, until its call is over. */
  lemma HoldStable(cfg: Config, es: seq<Event>, more: seq<Event>, t: Task)
    requires Good(es + more, t) && Never(cfg, Rebuilding, es + more, t)
    requires Stored(Run(cfg, es).board, t).Some?
    ensures var s, s' := Run(cfg, es), Run(cfg, es + more);
            && (t !in s'.done ==> Stored(s'.board, t) == Stored(s.board, t))
            && (IdOf(t) in s'.pending ==> Some(s'.pending[IdOf(t)].hold) == FromPayload(Stored(s.board, t).value))
  {
    assert (es + more)[..|es|] == es;
    PrefixLocal(cfg, es + more, t, |es|);
    RunLocal(cfg, es + more, t);
    NeverInside(cfg, Rebuilding, es + more, t);
    RunKeepsHold(cfg, es, more, t);
    RunUnrebuilt(cfg, es + more, t);
    var c' := CellRun(cfg, es + more, t);
    assert Look(Run(cfg, es + more).done, t) == c'.done;
    assert Look(Run(cfg, es + more).pending, IdOf(t)) == c'.entry;
    if c'.entry.Some? {
      RoundTrip(c'.entry.value.hold);
    }
  }

  // ---------------------------------------------------------------- the record that opens a hold

  /** A pending record as the first pass writes it. */
  predicate OpensWith(cfg: Config, rec: Record, i: Intent, env: Env, now: int) {
    && rec.intent == i && rec.state == Some(Pending) && !rec.replay && rec.error == None
    && Tells(rec.result, env.reply, Verdict.Review, Collected(env.gathered))
    && rec.deadline.Some? && FromIso(rec.deadline.value) == Some(now + EffectiveWindow(cfg, env.reply))
  }

  lemma PassOpensRecord(cfg: Config, c: Cell, i: Intent, env: Env)
    requires Places(c, Key(i)) && c.log == [] && c.slot.None? && c.response.None?
    requires var log := CellPass(cfg, c, i, env).log; log != [] && IsPending(log[0])
    ensures OpensWith(cfg, CellPass(cfg, c, i, env).log[0], i, env, c.now)
  {
    ReviewWasDecided(cfg, env);
    AnswerTells(cfg.failMode, env.reply, Verdict.Review, Collected(env.gathered));
    ReviewWindow(cfg, i, env, c.now);
    ParseIntText(c.now + EffectiveWindow(cfg, env.reply));
  }

  lemma EventOpensRecord(cfg: Config, c: Cell, e: Event, t: Task)
    requires CallInv(cfg, c, t) && c.log == []
    requires var log := CellApply(cfg, c, e, t).log; log != [] && IsPending(log[0])
    ensures About(e, t) && OpensWith(cfg, CellApply(cfg, c, e, t).log[0], e.intent, e.env, c.now)
  {
    PassOpensRecord(cfg, c, e.intent, e.env);
  }

  /** The first record of a held call says what the first pass that was answered with a review was
      told: the answer in full, with its evidence, and the deadline. */
  lemma OpeningTells(cfg: Config, es: seq<Event>, t: Task) returns (n: nat)
    requires Good(es, t)
    requires var log := Of(Run(cfg, es).log, t); log != [] && IsPending(log[0])
    ensures Asks(cfg, es, t, n) && Of(Run(cfg, es[..n]).log, t) == []
    ensures OpensWith(cfg, Of(Run(cfg, es).log, t)[0], es[n].intent, es[n].env, Run(cfg, es[..n]).now)
  {
    RunLocal(cfg, es, t);
    n := FirstOpens(cfg, es, t);
    PrefixLocal(cfg, es, t, n);
    RunKeeps(cfg, es[..n], t);
    EventOpensRecord(cfg, CellRun(cfg, es[..n], t), es[n], t);
  }

  /** A pending record as any pass writes it: the call and the answer of that very pass, marked as a
      replay exactly if a response was waiting. */
  predicate PendsWith(cfg: Config, rec: Record, i: Intent, env: Env, waiting: bool) {
    && rec.intent == i && Authorized(cfg, env) == Answered(rec.result)
    && Tells(rec.result, env.reply, Verdict.Review, Collected(env.gathered))
    && rec.deadline.Some? && rec.error == None && (rec.replay <==> waiting)
  }

  lemma HeldPends(c: Cell, i: Intent, r: ControlResult, h: Hold, source: Source, env: Env, k: nat)
    requires r.verdict == Verdict.Review
    requires var log := HeldPass(c, i, r, h, source, env).log; |c.log| <= k < |log| && IsPending(log[k])
    ensures !source.Memory?
    ensures HeldPass(c, i, r, h, source, env).log[k] == PendingRecord(i, r, h, c.response.Some?)
  {
    if c.response.Some? {
      ResolveExact(Governing(h, c.response.value), c.response.value, r, c.now);
    }
  }

  lemma HeldPendsWith(cfg: Config, c: Cell, i: Intent, r: ControlResult, h: Hold, source: Source, env: Env, k: nat)
    requires Decides(env.reply, Verdict.Review) && Authorized(cfg, env) == Answered(r)
    requires var log := HeldPass(c, i, r, h, source, env).log; |c.log| <= k < |log| && IsPending(log[k])
    ensures PendsWith(cfg, HeldPass(c, i, r, h, source, env).log[k], i, env, c.response.Some?)
  {
    AnswerTells(cfg.failMode, env.reply, Verdict.Review, Collected(env.gathered));
    HeldPends(c, i, r, h, source, env, k);
  }

  lemma PassPends(cfg: Config, c: Cell, i: Intent, env: Env, k: nat)
    requires Places(c, Key(i))
    requires var log := CellPass(cfg, c, i, env).log; |c.log| <= k < |log| && IsPending(log[k])
    ensures c.done.None? && c.entry.None?
    ensures PendsWith(cfg, CellPass(cfg, c, i, env).log[k], i, env, c.response.Some?)
  {
    ReviewWasDecided(cfg, env);
    match CellTurn(cfg, c, i, env)
    case Idle(_) =>
    case Straight(_, _) =>
    case Reviewing(c1, r, h, source) =>
      HeldPends(c1, i, r, h, source, env, k);
      HeldPendsWith(cfg, c1, i, r, h, source, env, k);
  }

  lemma EventPends(cfg: Config, c: Cell, e: Event, t: Task, k: nat)
    requires Places(c, t)
    requires var log := CellApply(cfg, c, e, t).log; |c.log| <= k < |log| && IsPending(log[k])
    ensures Consults(c, e, t)
    ensures PendsWith(cfg, CellApply(cfg, c, e, t).log[k], e.intent, e.env, Meeting(c, e).response.Some?)
  {
    if About(e, t) && (e.Resume? ==> c.slot.Some?) {
      EventTakes(cfg, c, e, t);
      PassPends(cfg, Meeting(c, e), e.intent, e.env, k);
    }
  }

  lemma RunPlaced(cfg: Config, es: seq<Event>, t: Task)
    ensures Places(CellRun(cfg, es, t), t)
  {
    RunKeeps(cfg, es, t);
  }

  lemma {:induction false} RunPends(cfg: Config, es: seq<Event>, t: Task, k: nat) returns (n: nat)
    requires k < |CellRun(cfg, es, t).log| && IsPending(CellRun(cfg, es, t).log[k])
    ensures n < |es| && Consults(CellRun(cfg, es[..n], t), es[n], t)
    ensures PendsWith(cfg, CellRun(cfg, es, t).log[k], es[n].intent, es[n].env,
                      Meeting(CellRun(cfg, es[..n], t), es[n]).response.Some?)
  {
    var init, e := es[..|es| - 1], es[|es| - 1];
    ApplyGrows(cfg, CellRun(cfg, init, t), e, t);
    if k < |CellRun(cfg, init, t).log| {
      n := RunPends(cfg, init, t, k);
      assert es[..n] == init[..n];
    } else {
      n := |es| - 1;
      RunPlaced(cfg, init, t);
      EventPends(cfg, CellRun(cfg, init, t), e, t, k);
    }
  }

  /** Every pending record of every run, replayed or not: the pass that wrote it asked the provider, and
      it says what that pass was answered. */
  lemma PendingTells(cfg: Config, es: seq<Event>, t: Task, k: nat) returns (n: nat)
    requires Good(es, t) && k < |Of(Run(cfg, es).log, t)| && IsPending(Of(Run(cfg, es).log, t)[k])
    ensures Asks(cfg, es, t, n)
    ensures PendsWith(cfg, Of(Run(cfg, es).log, t)[k], es[n].intent, es[n].env,
                      Meeting(View(Run(cfg, es[..n]), t), es[n]).response.Some?)
  {
    RunLocal(cfg, es, t);
    n := RunPends(cfg, es, t, k);
    PrefixLocal(cfg, es, t, n);
  }

  // ---------------------------------------------------------------- spans decode the state machine

  /** How a status reads on spans. */
  function ReadingOf(st: Status): Reading {
    match st
    case Absent => NoSpan
    case Held => StillHeld
    case Over(Ran) => SaysRan
    case Over(RanUnauthorized) => SaysRanUnauthorized
    case Over(RanApproved) => SaysApproved
    case Over(DeniedByRule) => SaysRule
    case Over(DeniedByOutage) => SaysOutage
    case Over(DeniedByHuman) => SaysHuman
    case Over(DeniedByTimeout) => SaysTimeout
  }

  lemma WordsDiffer()
    ensures "allow" != "deny" && "allow" != "review" && "allow" != "abstain"
    ensures "approved" != "pending" && "approved" != "rejected" && "approved" != "timed_out"
    ensures "pending" != "rejected" && "pending" != "timed_out"
  {
    assert "allow"[1] == 'l' && "abstain"[1] == 'b';
    assert "approved"[0] == 'a' && "rejected"[0] == 'r' && "pending"[0] == 'p' && "timed_out"[0] == 't';
  }

  /** A state reads back from its word. */
  lemma StateCarries(span: Span, rec: Record)
    requires ReviewOn(span, rec)
    ensures Look(span, "agentcontrol.review.state") == Some(JStr("pending")) <==> rec.state == Some(Pending)
    ensures Look(span, "agentcontrol.review.state") == Some(JStr("approved")) <==> rec.state == Some(Approved)
  {
    WordsDiffer();
    match rec.state
    case None =>
    case Some(Pending) =>
    case Some(Approved) =>
    case Some(Rejected) =>
    case Some(TimedOut) =>
  }

  lemma AllowCarries(span: Span, r: ControlResult)
    requires DecisionOn(span, r)
    ensures Look(span, "agentcontrol.policy.decision") == Some(JStr("allow")) <==> r.verdict == Allow
  {
    WordsDiffer();
  }

  lemma CauseCarries(span: Span, rec: Record)
    requires DecisionOn(span, rec.result) && ReviewOn(span, rec)
    requires Look(span, "error.type") == if rec.error.Some? then Some(JStr(rec.error.value)) else None
    ensures ReadCause(span) == ReadingOf(Over(Cause(rec)))
  {
    AllowCarries(span, rec.result);
    StateCarries(span, rec);
    var error: Option<Json> := Look(span, "error.type");
    assert error == Some(JStr("agentcontrol.review_timeout")) <==> rec.error == Some(TIMEOUT);
    assert error == Some(JStr("agentcontrol.review_rejected")) <==> rec.error == Some(REJECTED);
    assert error == Some(JStr("agentcontrol.policy_unavailable")) <==> rec.error == Some(OUTAGE);
  }

  /** The span says what the record says of the call's status. */
  predicate ReadsAs(span: Span, rec: Record) {
    && (Look(span, "agentcontrol.review.state") == Some(JStr("pending")) <==> IsPending(rec))
    && ReadCause(span) == ReadingOf(Over(Cause(rec)))
  }

  /** The status a record states is read from its span alone. */
  lemma SpanReads(rec: Record, cfg: SpanConfig, extras: SpanExtras)
    ensures ReadsAs(SpanAttributes(rec, cfg, extras), rec)
  {
    DecisionShown(rec, cfg, extras);
    ReviewShown(rec, cfg, extras);
    ErrorShown(rec, cfg, extras);
    StateCarries(SpanAttributes(rec, cfg, extras), rec);
    CauseCarries(SpanAttributes(rec, cfg, extras), rec);
  }

  /** The spans of a call's records, with whatever else was put on each. */
  predicate SpansOf(spans: seq<Span>, log: seq<Record>, cfg: SpanConfig, extras: seq<SpanExtras>) {
    |spans| == |log| == |extras| &&
    forall k :: 0 <= k < |log| ==> spans[k] == SpanAttributes(log[k], cfg, extras[k])
  }

  lemma LastReads(spans: seq<Span>, log: seq<Record>, cfg: SpanConfig, extras: seq<SpanExtras>)
    requires SpansOf(spans, log, cfg, extras) && log != []
    ensures ReadsAs(spans[|spans| - 1], log[|log| - 1])
  {
    SpanReads(log[|log| - 1], cfg, extras[|log| - 1]);
  }

  lemma LogDecodes(log: seq<Record>, spans: seq<Span>)
    requires |spans| == |log| && (log != [] ==> ReadsAs(spans[|spans| - 1], log[|log| - 1]))
    ensures ReadSpans(spans) == ReadingOf(Decode(log))
  {
  }

  /** The exported spans decode the state machine: for every call in every reachable state, folding
      its finished spans, read by their words alone, gives its status in the checkpoint. */
  lemma SpansDecode(cfg: Config, es: seq<Event>, t: Task, spanCfg: SpanConfig, extras: seq<SpanExtras>,
                    spans: seq<Span>)
    requires Good(es, t) && SpansOf(spans, Of(Run(cfg, es).log, t), spanCfg, extras)
    ensures ReadSpans(spans) == ReadingOf(TrueStatus(Run(cfg, es), t))
  {
    AuditDecodes(cfg, es, t);
    var log := Of(Run(cfg, es).log, t);
    if log != [] {
      LastReads(spans, log, spanCfg, extras);
    }
    LogDecodes(log, spans);
  }
}
