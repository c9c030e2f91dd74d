/** What every run leaves behind: why each call ended, and a record log from which that can
    be read back. */
module Histories {
  import opened Text
  import opened Json
  import opened Domain
  import opened Opa
  import opened Review
  import opened Telemetry
  import opened Protocol
  import opened Cells
  import opened Locality

  // ---------------------------------------------------------------- reading the log back

  /** What is known of a call: nothing, held for review, or ended for a cause. */
  datatype Status = Absent | Held | Over(ending: Ending)

  /** The cause a closing record states, read from the attributes on its span alone: the
      decision, the review state, the outage mark and the error type. */
  function Cause(rec: Record): Ending {
    if rec.result.verdict == Allow then
      if rec.state == Some(Approved) then RanApproved
      else if rec.result.unavailable then RanUnauthorized
      else Ran
    else if rec.error == Some(TIMEOUT) then DeniedByTimeout
    else if rec.error == Some(REJECTED) then DeniedByHuman
    else if rec.error == Some(OUTAGE) then DeniedByOutage
    else DeniedByRule
  }

  predicate IsPending(rec: Record) {
    rec.state == Some(Pending)
  }

  /** The fold over a call's records. Pending records, replayed or not, collapse into one. */
  function Decode(log: seq<Record>): Status {
    if log == [] then Absent
    else if IsPending(log[|log| - 1]) then Held
    else Over(Cause(log[|log| - 1]))
  }

  /** A call's status in the checkpoint. */
  function TrueStatus(s: Sys, t: Task): Status {
    if t in s.done then Over(s.done[t].ending)
    else if Stored(s.board, t).Some? then Held
    else Absent
  }

  // ---------------------------------------------------------------- why a call ended

  predicate DecidesAny(reply: Transport) {
    Decides(reply, Allow) || Decides(reply, Deny) || Decides(reply, Verdict.Review)
  }

  predicate ReviewDecided(replies: seq<Transport>) {
    exists k :: 0 <= k < |replies| && Decides(replies[k], Verdict.Review)
  }

  predicate ReviewLast(replies: seq<Transport>) {
    replies != [] && Decides(replies[|replies| - 1], Verdict.Review)
  }

  /** The deadline a held call was resolved against: the response's own, if it carries a hold. */
  function GoverningDeadline(d: Done): string
    requires d.deadline.Some? && d.response.Some?
  {
    if FromPayload(d.response.value).Some? then FromPayload(d.response.value).value.deadline else d.deadline.value
  }

  predicate WasHeld(d: Done, replies: seq<Transport>) {
    && d.deadline.Some? && d.response.Some? && FromIso(GoverningDeadline(d)).Some?
    && ReviewLast(replies)
  }

  /** The call ended on the provider's last reply, with no review. */
  predicate WasAsked(d: Done, replies: seq<Transport>) {
    d.deadline.None? && d.response.None? && replies != []
  }

  predicate InTime(d: Done)
    requires d.deadline.Some? && d.response.Some? && FromIso(GoverningDeadline(d)).Some?
  {
    d.at <= FromIso(GoverningDeadline(d)).value
  }

  /** The facts behind an ending: what the provider last replied, what the response said and
      when, and exactly which execution there was. */
  predicate Facts(mode: FailMode, d: Done, replies: seq<Transport>, execs: seq<Exec>) {
    match d.ending
    case Ran =>
      && WasAsked(d, replies) && Decides(replies[|replies| - 1], Allow)
      && execs == [Exec(d.at, Direct(replies[|replies| - 1]))]
    case RanUnauthorized =>
      && WasAsked(d, replies) && !DecidesAny(replies[|replies| - 1]) && mode == Open
      && execs == [Exec(d.at, Direct(replies[|replies| - 1]))]
    case RanApproved =>
      && WasHeld(d, replies) && InTime(d) && Approves(d.response.value)
      && execs == [Exec(d.at, Reviewed(d.response.value, GoverningDeadline(d)))]
    case DeniedByRule => WasAsked(d, replies) && Decides(replies[|replies| - 1], Deny) && execs == []
    case DeniedByOutage =>
      WasAsked(d, replies) && !DecidesAny(replies[|replies| - 1]) && mode == Closed && execs == []
    case DeniedByHuman => WasHeld(d, replies) && InTime(d) && !Approves(d.response.value) && execs == []
    case DeniedByTimeout => WasHeld(d, replies) && !InTime(d) && execs == []
  }

  lemma OneVerdict(mode: FailMode, reply: Transport)
    ensures Decides(reply, Allow) || Decides(reply, Deny) ==> !Decides(reply, Verdict.Review)
    ensures Decides(reply, Allow) ==> !Decides(reply, Deny)
  {
    Classified(mode, reply, []);
  }

  /** The facts leave no choice of ending: no two endings have the same facts. */
  lemma FactsDecide(mode: FailMode, d: Done, e: Ending, replies: seq<Transport>, execs: seq<Exec>)
    requires Facts(mode, d, replies, execs) && Facts(mode, d.(ending := e), replies, execs)
    ensures e == d.ending
  {
    OneVerdict(mode, replies[|replies| - 1]);
  }

  // ---------------------------------------------------------------- the invariant of one call

  predicate HoldOf(h: Hold, t: Task) {
    h.holdId == IdOf(t) && FromIso(h.deadline).Some?
  }

  predicate Places(c: Cell, t: Task) {
    && (c.entry.Some? ==> c.slot.Some? && HoldOf(c.entry.value.hold, t)
                          && c.entry.value.result.verdict == Verdict.Review && ReviewLast(c.replies))
    && (c.response.Some? ==> c.slot.Some?)
    && (c.slot.Some? ==> c.done.None? && SlotHold(c.slot).Some? && HoldOf(SlotHold(c.slot).value, t)
                         && c.slot == Some(ToPayload(SlotHold(c.slot).value)) && ReviewDecided(c.replies))
  }

  /** A record of a pending review, which states no cause. */
  predicate IsOpen(rec: Record) {
    IsPending(rec) && rec.result.verdict == Verdict.Review && rec.error == None && rec.deadline.Some?
  }

  /** Pending records, then exactly one closing record once the call is over, stating its cause. */
  predicate LogInv(c: Cell) {
    var open := if c.done.Some? then |c.log| - 1 else |c.log|;
    && (forall k :: 0 <= k < open ==> IsOpen(c.log[k]))
    && (c.done.None? ==> (c.log == [] <==> c.slot.None?))
    && (c.done.Some? ==> c.log != [] && Closes(c.log[|c.log| - 1], c.done.value))
  }

  /** The error type each cause of denial is reported under. */
  function ErrorOf(e: Ending): Option<string> {
    match e
    case DeniedByRule => Some(DENIED)
    case DeniedByOutage => Some(OUTAGE)
    case DeniedByHuman => Some(REJECTED)
    case DeniedByTimeout => Some(TIMEOUT)
    case _ => None
  }

  predicate Closes(rec: Record, d: Done) {
    && !IsPending(rec) && Cause(rec) == d.ending && rec.deadline == d.deadline
    && (rec.result.verdict == Deny ==> rec.error == ErrorOf(d.ending))
    && (rec.state.Some? <==> d.deadline.Some?)
  }

  predicate CallInv(cfg: Config, c: Cell, t: Task) {
    && Places(c, t)
    && LogInv(c)
    && (c.log != [] && IsPending(c.log[0]) ==> ReviewDecided(c.replies))
    && (c.done.None? ==> c.execs == [])
    && (c.done.Some? ==> Facts(cfg.failMode, c.done.value, c.replies, c.execs))
  }

  lemma HeldCause(i: Intent, h: Hold, response: Json, o: Outcome, now: int, replay: bool, env: Env)
    requires o.state != Pending && !o.result.unavailable
    requires o.result.verdict == (if o.state == Approved then Allow else Deny)
    ensures Closes(SettledRecord(i, h, o, replay, env), SettledDone(h, response, o, now))
  {
    ErrorTypesDistinct();
  }

  /** A call that ends with one closing record, for its cause, keeps the invariant. */
  lemma EndingKeeps(cfg: Config, c: Cell, t: Task, open: seq<Record>, rec: Record)
    requires c.entry.None? && c.slot.None? && c.response.None? && c.done.Some?
    requires c.log == open + [rec] && forall k :: 0 <= k < |open| ==> IsOpen(open[k])
    requires Closes(rec, c.done.value)
    requires Facts(cfg.failMode, c.done.value, c.replies, c.execs)
    requires open != [] ==> ReviewDecided(c.replies)
    ensures CallInv(cfg, c, t)
  {
  }

  /** What a final review state says of the deadline, the response and the moment. */
  predicate StateFits(state: ReviewState, deadline: int, response: Json, now: int) {
    match state
    case Approved => now <= deadline && Approves(response)
    case TimedOut => now > deadline
    case Rejected => now <= deadline && !Approves(response)
    case Pending => false
  }

  lemma OutcomeFacts(h: Hold, response: Json, r: ControlResult, now: int)
    requires Resolve(Governing(h, response), response, r, now).Some?
    ensures var o, g := Resolve(Governing(h, response), response, r, now).value, Governing(h, response);
            FromIso(g.deadline).Some? && StateFits(o.state, FromIso(g.deadline).value, response, now)
  {
    ResolveExact(Governing(h, response), response, r, now);
  }

  lemma LastIsSome(replies: seq<Transport>)
    requires ReviewLast(replies)
    ensures ReviewDecided(replies)
  {
  }

  /** A review that came to this state at this moment has the facts of its ending. */
  lemma ReviewedFacts(mode: FailMode, h: Hold, response: Json, state: ReviewState, message: Option<string>, now: int,
                      replies: seq<Transport>)
    requires ReviewLast(replies) && FromIso(Governing(h, response).deadline).Some?
    requires StateFits(state, FromIso(Governing(h, response).deadline).value, response, now)
    ensures Facts(mode, Done(message, HeldEnding(state), now, Some(h.deadline), Some(response)), replies,
                  if state == Approved then [Exec(now, Reviewed(response, Governing(h, response).deadline))] else [])
  {
  }

  lemma SettledFacts(mode: FailMode, h: Hold, response: Json, r: ControlResult, now: int, replies: seq<Transport>)
    requires ReviewLast(replies) && Resolve(Governing(h, response), response, r, now).Some?
    ensures var o := Resolve(Governing(h, response), response, r, now).value;
            Facts(mode, SettledDone(h, response, o, now), replies, SettledExecs(h, response, o.state, now))
  {
    OutcomeFacts(h, response, r, now);
    var o := Resolve(Governing(h, response), response, r, now).value;
    ReviewedFacts(mode, h, response, o.state, SettledDone(h, response, o, now).message, now, replies);
  }

  lemma SettledCloses(i: Intent, h: Hold, response: Json, r: ControlResult, now: int, replay: bool, env: Env)
    requires Resolve(Governing(h, response), response, r, now).Some?
    ensures var o := Resolve(Governing(h, response), response, r, now).value;
            Closes(SettledRecord(i, h, o, replay, env), SettledDone(h, response, o, now))
  {
    ResolveExact(Governing(h, response), response, r, now);
    HeldCause(i, h, response, Resolve(Governing(h, response), response, r, now).value, now, replay, env);
  }

  lemma SettledInv(cfg: Config, c: Cell, i: Intent, h: Hold, response: Json, o: Outcome, replay: bool, env: Env)
    requires c.entry.None? && c.execs == [] && ReviewDecided(c.replies)
    requires forall k :: 0 <= k < |c.log| ==> IsOpen(c.log[k])
    requires Closes(SettledRecord(i, h, o, replay, env), SettledDone(h, response, o, c.now))
    requires Facts(cfg.failMode, SettledDone(h, response, o, c.now), c.replies,
                   SettledExecs(h, response, o.state, c.now))
    ensures CallInv(cfg, Settled(c, i, h, response, o, replay, env), Key(i))
  {
    assert c.execs + SettledExecs(h, response, o.state, c.now) == SettledExecs(h, response, o.state, c.now);
    EndingKeeps(cfg, Settled(c, i, h, response, o, replay, env), Key(i), c.log, SettledRecord(i, h, o, replay, env));
  }

  lemma SettledKeeps(cfg: Config, c: Cell, i: Intent, h: Hold, response: Json, r: ControlResult, replay: bool, env: Env)
    requires c.execs == [] && ReviewLast(c.replies)
    requires forall k :: 0 <= k < |c.log| ==> IsOpen(c.log[k])
    requires Resolve(Governing(h, response), response, r, c.now).Some?
    ensures CallInv(cfg, Concluding(c, i, r, h, response, replay, env), Key(i))
  {
    SettledFacts(cfg.failMode, h, response, r, c.now, c.replies);
    SettledCloses(i, h, response, r, c.now, replay, env);
    LastIsSome(c.replies);
    SettledInv(cfg, c.(entry := None), i, h, response, Resolve(Governing(h, response), response, r, c.now).value,
               replay, env);
  }

  lemma StoredPlaces(c: Cell, i: Intent, r: ControlResult, h: Hold, source: Source, env: Env)
    requires Places(c, Key(i)) && c.done.None? && HoldOf(h, Key(i)) && r.verdict == Verdict.Review
    requires ReviewLast(c.replies) && c.response.None?
    ensures Places(HeldPass(c, i, r, h, source, env), Key(i))
  {
    RoundTrip(h);
    LastIsSome(c.replies);
  }

  lemma StoredLog(c: Cell, i: Intent, r: ControlResult, h: Hold, source: Source, env: Env)
    requires LogInv(c) && c.done.None? && r.verdict == Verdict.Review && c.response.None?
    requires source.Nowhere? || c.slot.Some?
    ensures LogInv(HeldPass(c, i, r, h, source, env))
  {
  }

  lemma UnansweredKeeps(cfg: Config, c: Cell, i: Intent, r: ControlResult, h: Hold, source: Source, env: Env)
    requires CallInv(cfg, c, Key(i)) && c.done.None? && HoldOf(h, Key(i)) && r.verdict == Verdict.Review
    requires ReviewLast(c.replies) && c.response.None?
    requires source.Nowhere? || c.slot.Some?
    ensures CallInv(cfg, HeldPass(c, i, r, h, source, env), Key(i))
  {
    StoredPlaces(c, i, r, h, source, env);
    StoredLog(c, i, r, h, source, env);
    LastIsSome(c.replies);
  }

  lemma AnsweredKeeps(cfg: Config, c: Cell, i: Intent, r: ControlResult, h: Hold, source: Source, env: Env)
    requires CallInv(cfg, c, Key(i)) && c.done.None? && HoldOf(h, Key(i)) && r.verdict == Verdict.Review
    requires ReviewLast(c.replies) && c.response.Some?
    ensures CallInv(cfg, HeldPass(c, i, r, h, source, env), Key(i))
  {
    var response := c.response.value;
    var c1 := if source.Memory? then c
              else Logged(c.(entry := Some(Entry(r, h))), PendingRecord(i, r, h, true));
    LastIsSome(c.replies);
    if Resolve(Governing(h, response), response, r, c.now).Some? {
      SettledKeeps(cfg, c1, i, h, response, r, !source.Memory?, env);
    } else {
      assert CallInv(cfg, c1, Key(i));
    }
  }

  lemma HeldKeeps(cfg: Config, c: Cell, i: Intent, r: ControlResult, h: Hold, source: Source, env: Env)
    requires CallInv(cfg, c, Key(i)) && c.done.None? && HoldOf(h, Key(i)) && r.verdict == Verdict.Review
    requires ReviewLast(c.replies)
    requires source.Nowhere? || c.slot.Some?
    ensures CallInv(cfg, HeldPass(c, i, r, h, source, env), Key(i))
  {
    if c.response.Some? {
      AnsweredKeeps(cfg, c, i, r, h, source, env);
    } else {
      UnansweredKeeps(cfg, c, i, r, h, source, env);
    }
  }

  lemma DirectDecided(mode: FailMode, reply: Transport, evidence: seq<Evidence>, r: ControlResult)
    requires Authorize(mode, reply, evidence) == Answered(r) && r.verdict != Verdict.Review
    ensures r.verdict == Allow || r.verdict == Deny
    ensures if r.unavailable then !DecidesAny(reply) && r.verdict == (if mode == Open then Allow else Deny)
            else Decides(reply, r.verdict)
  {
    Classified(mode, reply, evidence);
  }

  lemma DirectFacts(mode: FailMode, c: Cell, i: Intent, r: ControlResult, evidence: seq<Evidence>, env: Env)
    requires c.execs == [] && c.replies != [] && c.replies[|c.replies| - 1] == env.reply
    requires Authorize(mode, env.reply, evidence) == Answered(r) && r.verdict != Verdict.Review
    ensures var c' := DirectPass(c, i, r, env); Facts(mode, c'.done.value, c'.replies, c'.execs)
    ensures r.verdict == Allow || r.verdict == Deny
  {
    DirectDecided(mode, env.reply, evidence, r);
  }

  lemma DirectCloses(c: Cell, i: Intent, r: ControlResult, env: Env)
    requires r.verdict == Allow || r.verdict == Deny
    ensures var c' := DirectPass(c, i, r, env);
            c'.log[..|c.log|] == c.log && |c'.log| == |c.log| + 1 && Closes(c'.log[|c.log|], c'.done.value)
  {
    ErrorTypesDistinct();
  }

  lemma DirectKeeps(cfg: Config, c: Cell, i: Intent, r: ControlResult, evidence: seq<Evidence>, env: Env)
    requires CallInv(cfg, c, Key(i)) && c.done.None? && c.entry.None?
    requires Authorize(cfg.failMode, env.reply, evidence) == Answered(r) && r.verdict != Verdict.Review
    requires c.replies != [] && c.replies[|c.replies| - 1] == env.reply
    ensures CallInv(cfg, DirectPass(c, i, r, env), Key(i))
  {
    DirectFacts(cfg.failMode, c, i, r, evidence, env);
    DirectCloses(c, i, r, env);
    var c' := DirectPass(c, i, r, env);
    assert c'.log == c.log + [c'.log[|c.log|]];
    EndingKeeps(cfg, c', Key(i), c.log, c'.log[|c.log|]);
  }

  lemma ConsultKeeps(cfg: Config, c: Cell, i: Intent, env: Env)
    requires CallInv(cfg, c, Key(i)) && c.done.None? && c.entry.None?
    ensures CallInv(cfg, c.(replies := c.replies + [env.reply]), Key(i))
  {
    var c1 := c.(replies := c.replies + [env.reply]);
    if k :| 0 <= k < |c.replies| && Decides(c.replies[k], Verdict.Review) {
      assert c1.replies[k] == c.replies[k];
    }
  }

  /** What is known of a call when its turn comes. */
  predicate Ready(cfg: Config, turn: Turn, i: Intent, env: Env) {
    match turn
    case Idle(c) => CallInv(cfg, c, Key(i))
    case Straight(c, r) =>
      && CallInv(cfg, c, Key(i)) && c.done.None? && c.entry.None?
      && Authorized(cfg, env) == Answered(r) && r.verdict != Verdict.Review
      && c.replies != [] && c.replies[|c.replies| - 1] == env.reply
    case Reviewing(c, r, h, source) =>
      && CallInv(cfg, c, Key(i)) && c.done.None? && HoldOf(h, Key(i)) && r.verdict == Verdict.Review
      && ReviewLast(c.replies) && (source.Nowhere? || c.slot.Some?)
  }

  lemma ReviewWasDecided(cfg: Config, env: Env)
    ensures var a := Authorized(cfg, env);
            a.Answered? && a.result.verdict == Verdict.Review ==> Decides(env.reply, Verdict.Review)
  {
    Classified(cfg.failMode, env.reply, Collected(env.gathered));
  }

  lemma BuiltHoldOf(i: Intent, r: ControlResult, fallback: int, now: int)
    ensures HoldOf(BuildHold(i, r, fallback, now), Key(i))
  {
    BuildHoldDeadline(i, r, fallback, now);
  }

  lemma ConsultTurn(cfg: Config, c: Cell, i: Intent, env: Env)
    requires Places(c, Key(i)) && c.done.None? && c.entry.None?
    ensures var turn := CellTurn(cfg, c, i, env);
            && turn.cell == c.(replies := c.replies + [env.reply])
            && (turn.Straight? ==>
                  Authorized(cfg, env) == Answered(turn.result) && turn.result.verdict != Verdict.Review)
            && (turn.Reviewing? ==>
                  && HoldOf(turn.hold, Key(i)) && turn.result.verdict == Verdict.Review
                  && Decides(env.reply, Verdict.Review) && (turn.source.Nowhere? || c.slot.Some?))
  {
    ReviewWasDecided(cfg, env);
    if Authorized(cfg, env).Answered? {
      BuiltHoldOf(i, Authorized(cfg, env).result, cfg.fallback, c.now);
    }
  }

  lemma ConsultReady(cfg: Config, c: Cell, i: Intent, env: Env)
    requires CallInv(cfg, c, Key(i)) && c.done.None? && c.entry.None?
    ensures Ready(cfg, CellTurn(cfg, c, i, env), i, env)
  {
    ConsultKeeps(cfg, c, i, env);
    ConsultTurn(cfg, c, i, env);
  }

  lemma PassKeeps(cfg: Config, c: Cell, i: Intent, env: Env)
    requires CallInv(cfg, c, Key(i))
    ensures CallInv(cfg, CellPass(cfg, c, i, env), Key(i))
  {
    if c.done.None? && c.entry.None? {
      ConsultReady(cfg, c, i, env);
    }
    match CellTurn(cfg, c, i, env)
    case Idle(_) =>
    case Straight(c1, r) => DirectKeeps(cfg, c1, i, r, Collected(env.gathered), env);
    case Reviewing(c1, r, h, source) => HeldKeeps(cfg, c1, i, r, h, source, env);
  }

  lemma ApplyKeeps(cfg: Config, c: Cell, e: Event, t: Task)
    requires CallInv(cfg, c, t)
    ensures CallInv(cfg, CellApply(cfg, c, e, t), t)
  {
    match e
    case Tick(_) =>
    case LoseMemory =>
    case Foreign(_, _) =>
    case Call(i, env) =>
      if Key(i) == t {
        PassKeeps(cfg, c, i, env);
      }
    case Resume(i, response, env) =>
      if Key(i) == t && c.slot.Some? {
        PassKeeps(cfg, c.(response := Some(response)), i, env);
      }
  }

  lemma {:induction false} RunKeeps(cfg: Config, es: seq<Event>, t: Task)
    ensures CallInv(cfg, CellRun(cfg, es, t), t)
  {
    if es != [] {
      RunKeeps(cfg, es[..|es| - 1], t);
      ApplyKeeps(cfg, CellRun(cfg, es[..|es| - 1], t), es[|es| - 1], t);
    }
  }

  // ---------------------------------------------------------------- capabilities

  predicate ByReview(e: Ending) {
    e == RanApproved || e == DeniedByHuman || e == DeniedByTimeout
  }

  /** Nothing is known against blocking a tool, or against asking a human. */
  predicate CanBlock(cfg: Config) {
    cfg.capabilities == None || cfg.capabilities.value.blockBeforeTool
  }

  predicate CanHold(cfg: Config) {
    cfg.capabilities == None || cfg.capabilities.value.humanApproval
  }

  /** A call is held, or ended by a review or a denial, only where the adapter can do that. */
  predicate Capable(cfg: Config, held: bool, ending: Option<Ending>) {
    && (held ==> CanHold(cfg))
    && (ending.Some? && ByReview(ending.value) ==> CanHold(cfg))
    && (ending == Some(DeniedByRule) || ending == Some(DeniedByOutage) ==> CanBlock(cfg))
  }

  function EndingOf(c: Cell): Option<Ending> {
    if c.done.Some? then Some(c.done.value.ending) else None
  }

  lemma HeldCapable(cfg: Config, c: Cell, i: Intent, r: ControlResult, h: Hold, source: Source, env: Env)
    requires c.done.None? && CanHold(cfg)
    ensures var c' := HeldPass(c, i, r, h, source, env); Capable(cfg, c'.slot.Some?, EndingOf(c'))
  {
  }

  lemma PassCapable(cfg: Config, c: Cell, i: Intent, env: Env)
    requires (c.entry.Some? ==> c.slot.Some?) && Capable(cfg, c.slot.Some?, EndingOf(c))
    ensures var c' := CellPass(cfg, c, i, env); Capable(cfg, c'.slot.Some?, EndingOf(c'))
  {
    match CellTurn(cfg, c, i, env)
    case Reviewing(c1, r, h, source) => HeldCapable(cfg, c1, i, r, h, source, env);
    case _ =>
  }

  lemma EntryHeld(cfg: Config, es: seq<Event>, t: Task)
    ensures CellRun(cfg, es, t).entry.Some? ==> CellRun(cfg, es, t).slot.Some?
  {
    RunKeeps(cfg, es, t);
  }

  lemma {:induction false} RunCapable(cfg: Config, es: seq<Event>, t: Task)
    ensures var c := CellRun(cfg, es, t); Capable(cfg, c.slot.Some?, EndingOf(c))
  {
    if es != [] {
      var init, e := es[..|es| - 1], es[|es| - 1];
      var c := CellRun(cfg, init, t);
      RunCapable(cfg, init, t);
      EntryHeld(cfg, init, t);
      if e.Call? && Key(e.intent) == t {
        PassCapable(cfg, c, e.intent, e.env);
      } else if e.Resume? && Key(e.intent) == t && c.slot.Some? {
        PassCapable(cfg, c.(response := Some(e.response)), e.intent, e.env);
      }
    }
  }

  /** No verdict takes effect that the adapter cannot enforce: in every run, a call is held or
      was ended by a review only if the adapter has human approval, and is denied only if it can
      block a tool. */
  lemma CapabilitiesRespected(cfg: Config, es: seq<Event>, t: Task)
    requires Good(es, t)
    ensures var s := Run(cfg, es);
            Capable(cfg, Stored(s.board, t).Some?, if t in s.done then Some(s.done[t].ending) else None)
  {
    RunLocal(cfg, es, t);
    RunCapable(cfg, es, t);
    assert Look(Run(cfg, es).done, t) == CellRun(cfg, es, t).done;
  }

  // ---------------------------------------------------------------- main results

  /** Exactly why every call ended, in every run, with no assumption on policy, recovery or
      responses: the reply that allowed or denied it, the outage, or the response and the
      moment that settled its review; and exactly one execution if it ran, none otherwise. */
  lemma EndingsExplained(cfg: Config, es: seq<Event>, t: Task)
    requires Good(es, t)
    ensures var s := Run(cfg, es);
            && (t in s.done ==> Facts(cfg.failMode, s.done[t], Of(s.replies, t), Of(s.execs, t)))
            && (t !in s.done ==> Of(s.execs, t) == [])
  {
    RunLocal(cfg, es, t);
    RunKeeps(cfg, es, t);
    assert Look(Run(cfg, es).done, t) == CellRun(cfg, es, t).done;
  }

  /** The record log decodes the state machine: for every call in every reachable state, the
      fold over its records gives its status in the checkpoint, cause included. */
  lemma AuditDecodes(cfg: Config, es: seq<Event>, t: Task)
    requires Good(es, t)
    ensures Decode(Of(Run(cfg, es).log, t)) == TrueStatus(Run(cfg, es), t)
  {
    RunLocal(cfg, es, t);
    RunKeeps(cfg, es, t);
    assert Look(Run(cfg, es).done, t) == CellRun(cfg, es, t).done;
  }

  /** The number of records that are not pending. */
  function Closings(log: seq<Record>): nat {
    if log == [] then 0
    else Closings(log[..|log| - 1]) + if IsPending(log[|log| - 1]) then 0 else 1
  }

  lemma {:induction false} NoClosing(log: seq<Record>)
    requires forall k :: 0 <= k < |log| ==> IsPending(log[k])
    ensures Closings(log) == 0
  {
    if log != [] {
      NoClosing(log[..|log| - 1]);
    }
  }

  lemma CellClosing(cfg: Config, c: Cell, t: Task)
    requires CallInv(cfg, c, t)
    ensures Closings(c.log) == (if c.done.Some? then 1 else 0)
    ensures c.done.Some? ==> c.log != [] && !IsPending(c.log[|c.log| - 1])
  {
    NoClosing(if c.done.Some? then c.log[..|c.log| - 1] else c.log);
  }

  /** Every decided call has exactly one closing record, the last of its records, and it is
      the only one; an undecided call has none. */
  lemma OneClosingRecord(cfg: Config, es: seq<Event>, t: Task)
    requires Good(es, t)
    ensures var s := Run(cfg, es); var log := Of(s.log, t);
            && Closings(log) == (if t in s.done then 1 else 0)
            && (t in s.done ==> log != [] && !IsPending(log[|log| - 1]))
  {
    RunLocal(cfg, es, t);
    RunKeeps(cfg, es, t);
    CellClosing(cfg, CellRun(cfg, es, t), t);
    assert Look(Run(cfg, es).done, t) == CellRun(cfg, es, t).done;
  }

  // ---------------------------------------------------------------- what a pass must do

  /** The pass on event e asks the provider about t. */
  predicate Consults(c: Cell, e: Event, t: Task) {
    About(e, t) && c.done.None? && c.entry.None? && (e.Resume? ==> c.slot.Some?)
  }

  /** The call as the body finds it: with the response just given, if one is. */
  function Meeting(c: Cell, e: Event): Cell {
    if e.Resume? then c.(response := Some(e.response)) else c
  }

  /** An event over t runs one pass over it. */
  lemma EventTakes(cfg: Config, c: Cell, e: Event, t: Task)
    requires About(e, t) && (e.Resume? ==> c.slot.Some?)
    ensures CellApply(cfg, c, e, t) == CellPass(cfg, Meeting(c, e), e.intent, e.env)
  {
  }

  /** The call is over with this ending, now, and ran on this pass's reply if it ran. */
  predicate OverNow(c: Cell, c': Cell, e: Ending, reply: Transport) {
    && c'.done.Some? && c'.done.value.ending == e && c'.done.value.at == c.now
    && c'.entry == None && c'.slot == None && c'.response == None
    && c'.execs == c.execs + if e == Ran || e == RanUnauthorized then [Exec(c.now, Direct(reply))] else []
  }

  /** The call is now held: stored, remembered and recorded. */
  predicate HeldNow(c: Cell, c': Cell) {
    && c'.done == None && c'.slot.Some? && c'.entry.Some? && c'.execs == c.execs
    && |c'.log| == |c.log| + 1 && IsPending(c'.log[|c.log|]) && !c'.log[|c.log|].replay
  }

  /** Nothing came of the pass. */
  predicate Stopped(c: Cell, c': Cell) {
    c'.done == None && c'.slot == c.slot && c'.entry == None && c'.execs == c.execs && c'.log == c.log
  }

  /** What a pass that asks the provider makes of the reply. */
  predicate ActsOn(cfg: Config, c: Cell, c': Cell, reply: Transport) {
    if Decides(reply, Allow) then OverNow(c, c', Ran, reply)
    else if Decides(reply, Deny) then
      if CanBlock(cfg) then OverNow(c, c', DeniedByRule, reply) else Stopped(c, c')
    else if Decides(reply, Verdict.Review) then
      if !CanHold(cfg) then Stopped(c, c') else c.slot.None? ==> HeldNow(c, c')
    else if Undecodable(reply) then Stopped(c, c')
    else if cfg.failMode == Open then OverNow(c, c', RanUnauthorized, reply)
    else if CanBlock(cfg) then OverNow(c, c', DeniedByOutage, reply)
    else Stopped(c, c')
  }

  lemma GoodPrefix(es: seq<Event>, t: Task, n: nat)
    requires Good(es, t) && n <= |es|
    ensures Good(es[..n], t)
  {
    forall k | 0 <= k < n ensures GoodEvent(es[..n][k], t) {
      assert es[..n][k] == es[k];
    }
  }

  lemma ReviewingActs(c: Cell, i: Intent, r: ControlResult, h: Hold, env: Env)
    requires c.done.None? && c.response.None?
    ensures HeldNow(c, HeldPass(c, i, r, h, Nowhere, env))
  {
  }

  lemma StraightActs(c: Cell, i: Intent, r: ControlResult, env: Env)
    requires c.done.None? && c.entry.None? && r.verdict != Verdict.Review
    ensures OverNow(c, DirectPass(c, i, r, env),
                    if r.verdict == Deny then (if r.unavailable then DeniedByOutage else DeniedByRule)
                    else if r.unavailable then RanUnauthorized else Ran, env.reply)
  {
  }

  /** Which turn a reply leads to. */
  lemma AskedTurn(cfg: Config, c: Cell, i: Intent, env: Env)
    requires Places(c, Key(i)) && c.done.None? && c.entry.None?
    ensures var turn, reply := CellTurn(cfg, c, i, env), env.reply;
            && turn.cell == c.(replies := c.replies + [reply])
            && (turn.Reviewing? <==> Decides(reply, Verdict.Review) && CanHold(cfg))
            && (turn.Reviewing? && c.slot.None? ==> turn.source == Nowhere)
            && (turn.Straight? && !turn.result.unavailable ==>
                  Decides(reply, turn.result.verdict) && turn.result.verdict in {Allow, Deny})
            && (turn.Straight? && turn.result.unavailable ==>
                  && !DecidesAny(reply) && !Undecodable(reply)
                  && turn.result.verdict == if cfg.failMode == Open then Allow else Deny)
            && (turn.Straight? && turn.result.verdict == Deny ==> CanBlock(cfg))
            && (turn.Idle? ==>
                  || Undecodable(reply) || (Decides(reply, Deny) && !CanBlock(cfg))
                  || (Decides(reply, Verdict.Review) && !CanHold(cfg))
                  || (!DecidesAny(reply) && cfg.failMode == Closed && !CanBlock(cfg)))
  {
    Classified(cfg.failMode, env.reply, Collected(env.gathered));
  }

  lemma AskedPassActs(cfg: Config, c: Cell, i: Intent, env: Env)
    requires Places(c, Key(i)) && c.done.None? && c.entry.None?
    ensures ActsOn(cfg, c, CellPass(cfg, c, i, env), env.reply)
  {
    AskedTurn(cfg, c, i, env);
    OneVerdict(cfg.failMode, env.reply);
    match CellTurn(cfg, c, i, env)
    case Idle(_) => UndecodableDecidesNothing(env.reply);
    case Straight(c1, r) =>
      StraightActs(c1, i, r, env);
    case Reviewing(c1, r, h, source) =>
      if c.slot.None? {
        ReviewingActs(c1, i, r, h, env);
      }
  }

  lemma UndecodableDecidesNothing(reply: Transport)
    ensures Undecodable(reply) ==> !DecidesAny(reply)
  {
  }

  /** What a pass that asks the provider does, in any reachable state. A reply that decides allow
      runs the tool and ends the call; one that decides deny ends it without running, if the adapter
      can block; one that decides review holds it, if it was not held and the adapter can ask a
      human; one that decides nothing but can be decoded ends it by the fail mode; and otherwise
      nothing comes of the pass. */
  lemma AskingActs(cfg: Config, es: seq<Event>, e: Event, t: Task)
    requires Good(es + [e], t) && Consults(View(Run(cfg, es), t), e, t)
    ensures ActsOn(cfg, View(Run(cfg, es), t), View(Run(cfg, es + [e]), t), e.env.reply)
  {
    assert (es + [e])[..|es|] == es && (es + [e])[|es|] == e;
    GoodPrefix(es + [e], t, |es|);
    RunLocal(cfg, es, t);
    RunLocal(cfg, es + [e], t);
    RunKeeps(cfg, es, t);
    var c := CellRun(cfg, es, t);
    EventTakes(cfg, c, e, t);
    AskedPassActs(cfg, Meeting(c, e), e.intent, e.env);
  }

  // ---------------------------------------------------------------- tracing a call's end to its events

  lemma HeldReplies(c: Cell, i: Intent, r: ControlResult, h: Hold, source: Source, env: Env)
    ensures HeldPass(c, i, r, h, source, env).replies == c.replies
  {
  }

  lemma PassReplies(cfg: Config, c: Cell, i: Intent, env: Env)
    ensures CellPass(cfg, c, i, env).replies ==
            if c.done.None? && c.entry.None? then c.replies + [env.reply] else c.replies
  {
    match CellTurn(cfg, c, i, env)
    case Reviewing(c1, r, h, source) => HeldReplies(c1, i, r, h, source, env);
    case _ =>
  }

  lemma ApplyReplies(cfg: Config, c: Cell, e: Event, t: Task)
    ensures CellApply(cfg, c, e, t).replies ==
            if Consults(c, e, t) then c.replies + [e.env.reply] else c.replies
  {
    match e
    case Call(i, env) => PassReplies(cfg, c, i, env);
    case Resume(i, response, env) => PassReplies(cfg, c.(response := Some(response)), i, env);
    case _ =>
  }

  /** Every provider reply counted for a call came in on one of that call's passes, which asked
      for it. */
  lemma {:induction false} RepliesFromPasses(cfg: Config, es: seq<Event>, t: Task, k: nat) returns (j: nat)
    requires k < |CellRun(cfg, es, t).replies|
    ensures j < |es| && Consults(CellRun(cfg, es[..j], t), es[j], t)
    ensures es[j].env.reply == CellRun(cfg, es, t).replies[k]
  {
    var init, e := es[..|es| - 1], es[|es| - 1];
    ApplyReplies(cfg, CellRun(cfg, init, t), e, t);
    if k < |CellRun(cfg, init, t).replies| {
      j := RepliesFromPasses(cfg, init, t, k);
      assert es[..j] == init[..j];
    } else {
      j := |es| - 1;
    }
  }

  /** Between an answer and the end of the call nothing else answers it. */
  predicate LastAnswer(es: seq<Event>, t: Task, m: nat) {
    && m < |es| && es[m].Resume? && About(es[m], t)
    && (forall q :: m < q < |es| ==> !(es[q].Resume? && About(es[q], t)))
  }

  lemma HeldResponse(c: Cell, i: Intent, r: ControlResult, h: Hold, source: Source, env: Env)
    ensures var c' := HeldPass(c, i, r, h, source, env); c'.response.Some? ==> c'.response == c.response
  {
  }

  lemma PassResponse(cfg: Config, c: Cell, i: Intent, env: Env)
    ensures var c' := CellPass(cfg, c, i, env); c'.response.Some? ==> c'.response == c.response
  {
    match CellTurn(cfg, c, i, env)
    case Reviewing(c1, r, h, source) => HeldResponse(c1, i, r, h, source, env);
    case _ =>
  }

  lemma ApplyResponse(cfg: Config, c: Cell, e: Event, t: Task)
    requires (c.response.Some? ==> c.slot.Some?) && CellApply(cfg, c, e, t).response.Some?
    ensures if e.Resume? && About(e, t)
            then c.slot.Some? && CellApply(cfg, c, e, t).response == Some(e.response)
            else CellApply(cfg, c, e, t).response == c.response
  {
    match e
    case Call(i, env) => PassResponse(cfg, c, i, env);
    case Resume(i, response, env) => PassResponse(cfg, c.(response := Some(response)), i, env);
    case _ =>
  }

  /** A response waits only while its call is held, and a call is held only by a review. */
  lemma RunAnswered(cfg: Config, es: seq<Event>, t: Task)
    ensures var c := CellRun(cfg, es, t);
            (c.response.Some? ==> c.slot.Some?) && (c.slot.Some? ==> ReviewDecided(c.replies))
  {
    RunKeeps(cfg, es, t);
  }

  lemma LastAnswerStands(es: seq<Event>, e: Event, t: Task, m: nat)
    requires LastAnswer(es, t, m) && !(e.Resume? && About(e, t))
    ensures LastAnswer(es + [e], t, m)
  {
  }

  /** The response in force for a call is the one last given to it, while it was held. */
  lemma {:induction false} ResponseGiven(cfg: Config, es: seq<Event>, t: Task) returns (m: nat)
    requires CellRun(cfg, es, t).response.Some?
    ensures LastAnswer(es, t, m) && CellRun(cfg, es, t).response == Some(es[m].response)
    ensures CellRun(cfg, es[..m], t).slot.Some?
  {
    var init, e := es[..|es| - 1], es[|es| - 1];
    RunAnswered(cfg, init, t);
    ApplyResponse(cfg, CellRun(cfg, init, t), e, t);
    if e.Resume? && About(e, t) {
      m := |es| - 1;
    } else {
      m := ResponseGiven(cfg, init, t);
      LastAnswerStands(init, e, t, m);
      assert es == init + [e] && es[..m] == init[..m];
    }
  }

  /** The pass on event e ends the call as d says. */
  predicate EndsOn(c: Cell, e: Event, t: Task, d: Done) {
    && About(e, t) && c.done.None? && (e.Resume? ==> c.slot.Some?)
    && d.at == c.now
    && (if d.response.Some? then Meeting(c, e).response == d.response else Consults(c, e, t))
  }

  lemma HeldEnds(c: Cell, i: Intent, r: ControlResult, h: Hold, source: Source, env: Env)
    requires c.done.None?
    ensures var c' := HeldPass(c, i, r, h, source, env);
            c'.done.Some? ==> c'.done.value.at == c.now && c'.done.value.response == c.response && c.response.Some?
  {
  }

  lemma PassEnds(cfg: Config, c: Cell, i: Intent, env: Env)
    requires c.done.None?
    ensures var c' := CellPass(cfg, c, i, env);
            c'.done.Some? ==>
              && c'.done.value.at == c.now
              && (if c'.done.value.response.Some? then c'.done.value.response == c.response else c.entry.None?)
  {
    match CellTurn(cfg, c, i, env)
    case Reviewing(c1, r, h, source) => HeldEnds(c1, i, r, h, source, env);
    case _ =>
  }

  lemma ApplyEnds(cfg: Config, c: Cell, e: Event, t: Task)
    requires c.done.None? && CellApply(cfg, c, e, t).done.Some?
    ensures EndsOn(c, e, t, CellApply(cfg, c, e, t).done.value)
  {
    match e
    case Call(i, env) => PassEnds(cfg, c, i, env);
    case Resume(i, response, env) => PassEnds(cfg, c.(response := Some(response)), i, env);
    case _ =>
  }

  lemma StaysOver(cfg: Config, c: Cell, e: Event, t: Task)
    requires CallInv(cfg, c, t) && c.done.Some?
    ensures var c' := CellApply(cfg, c, e, t); c'.done == c.done && c'.replies == c.replies && c'.log == c.log
  {
  }

  /** Every ended call has one pass that ended it. */
  lemma {:induction false} EndFrom(cfg: Config, es: seq<Event>, t: Task) returns (j: nat)
    requires CellRun(cfg, es, t).done.Some?
    ensures j < |es| && EndsOn(CellRun(cfg, es[..j], t), es[j], t, CellRun(cfg, es, t).done.value)
    ensures var c := CellRun(cfg, es[..j], t);
            CellRun(cfg, es, t).replies == if Consults(c, es[j], t) then c.replies + [es[j].env.reply] else c.replies
    ensures var c' := CellApply(cfg, CellRun(cfg, es[..j], t), es[j], t);
            c'.done == CellRun(cfg, es, t).done && c'.log == CellRun(cfg, es, t).log
  {
    var init, e := es[..|es| - 1], es[|es| - 1];
    if CellRun(cfg, init, t).done.Some? {
      RunKeeps(cfg, init, t);
      StaysOver(cfg, CellRun(cfg, init, t), e, t);
      j := EndFrom(cfg, init, t);
      assert es[..j] == init[..j];
    } else {
      j := |es| - 1;
      ApplyEnds(cfg, CellRun(cfg, init, t), e, t);
      ApplyReplies(cfg, CellRun(cfg, init, t), e, t);
    }
  }

  // ---------------------------------------------------------------- the events behind an ending

  /** The n-th event is a pass over t that asked the provider. */
  predicate Asks(cfg: Config, es: seq<Event>, t: Task, n: nat) {
    n < |es| && Consults(View(Run(cfg, es[..n]), t), es[n], t)
  }

  /** The m-th event gave t this response, while it was held, and no later event up to the j-th
      gave it another. */
  predicate Gives(cfg: Config, es: seq<Event>, t: Task, response: Json, m: nat, j: nat) {
    && m <= j < |es| && LastAnswer(es[..j + 1], t, m) && es[m].response == response
    && Stored(Run(cfg, es[..m]).board, t).Some?
  }

  /** The j-th event is a pass over t, and ended it the way and at the moment d says. */
  predicate Ends(cfg: Config, es: seq<Event>, t: Task, d: Done, j: nat) {
    && j < |es| && About(es[j], t)
    && t !in Run(cfg, es[..j]).done && Run(cfg, es[..j]).now == d.at
    && Of(Run(cfg, es[..j]).execs, t) == []
  }

  /** The three events behind an ending: the j-th ended the call. Without a review the provider
      was asked on that very pass, and its reply was the last. With one, the n-th asked and got
      a review, then the m-th gave the response the call was resolved with. */
  predicate Traced(cfg: Config, es: seq<Event>, t: Task, n: nat, m: nat, j: nat) {
    var s := Run(cfg, es);
    && t in s.done && Ends(cfg, es, t, s.done[t], j)
    && (if s.done[t].response.None? then
          && Asks(cfg, es, t, j)
          && Of(s.replies, t) == Of(Run(cfg, es[..j]).replies, t) + [es[j].env.reply]
        else
          && n < m && Asks(cfg, es, t, n) && Decides(es[n].env.reply, Verdict.Review)
          && Gives(cfg, es, t, s.done[t].response.value, m, j))
  }

  lemma PrefixLocal(cfg: Config, es: seq<Event>, t: Task, n: nat)
    requires Good(es, t) && n <= |es|
    ensures View(Run(cfg, es[..n]), t) == CellRun(cfg, es[..n], t)
    ensures t in Run(cfg, es[..n]).done <==> CellRun(cfg, es[..n], t).done.Some?
  {
    GoodPrefix(es, t, n);
    RunLocal(cfg, es[..n], t);
    assert Look(Run(cfg, es[..n]).done, t) == CellRun(cfg, es[..n], t).done;
  }

  lemma SomeReview(replies: seq<Transport>) returns (k: nat)
    requires ReviewDecided(replies)
    ensures k < |replies| && Decides(replies[k], Verdict.Review)
  {
    k :| 0 <= k < |replies| && Decides(replies[k], Verdict.Review);
  }

  /** A held call was answered with a review on an earlier pass. */
  lemma ReviewBefore(cfg: Config, es: seq<Event>, t: Task, m: nat) returns (n: nat)
    requires Good(es, t) && m <= |es| && CellRun(cfg, es[..m], t).slot.Some?
    ensures n < m && Asks(cfg, es, t, n) && Decides(es[n].env.reply, Verdict.Review)
  {
    RunAnswered(cfg, es[..m], t);
    var k := SomeReview(CellRun(cfg, es[..m], t).replies);
    n := RepliesFromPasses(cfg, es[..m], t, k);
    assert es[..m][..n] == es[..n];
    PrefixLocal(cfg, es, t, n);
  }

  lemma ResponseBefore(cfg: Config, es: seq<Event>, t: Task, response: Json, j: nat) returns (m: nat)
    requires Good(es, t) && j < |es|
    requires var c := CellRun(cfg, es[..j], t);
             About(es[j], t) && (es[j].Resume? ==> c.slot.Some?) && Meeting(c, es[j]).response == Some(response)
    ensures Gives(cfg, es, t, response, m, j) && CellRun(cfg, es[..m], t).slot.Some?
  {
    if es[j].Resume? {
      m := j;
    } else {
      m := ResponseGiven(cfg, es[..j], t);
      LastAnswerStands(es[..j], es[j], t, m);
      assert es[..j] + [es[j]] == es[..j + 1] && es[..j][..m] == es[..m];
    }
    PrefixLocal(cfg, es, t, m);
  }

  lemma UnendedUnrun(cfg: Config, es: seq<Event>, t: Task)
    requires Good(es, t) && t !in Run(cfg, es).done
    ensures Of(Run(cfg, es).execs, t) == []
  {
    EndingsExplained(cfg, es, t);
  }

  /** Every ending of every run is traced to the events behind it. */
  lemma EndingTraced(cfg: Config, es: seq<Event>, t: Task) returns (n: nat, m: nat, j: nat)
    requires Good(es, t) && t in Run(cfg, es).done
    ensures Traced(cfg, es, t, n, m, j)
  {
    RunLocal(cfg, es, t);
    assert Look(Run(cfg, es).done, t) == CellRun(cfg, es, t).done;
    j := EndFrom(cfg, es, t);
    PrefixLocal(cfg, es, t, j);
    GoodPrefix(es, t, j);
    UnendedUnrun(cfg, es[..j], t);
    n, m := 0, 0;
    var response := Run(cfg, es).done[t].response;
    if response.Some? {
      m := ResponseBefore(cfg, es, t, response.value, j);
      n := ReviewBefore(cfg, es, t, m);
    }
  }

  // ---------------------------------------------------------------- causes of denial

  lemma DenialInCell(cfg: Config, c: Cell, t: Task, j: nat)
    requires CallInv(cfg, c, t) && j < |c.log| && c.log[j].result.verdict == Deny
    ensures c.done.Some? && c.log[j].error == ErrorOf(c.done.value.ending) && c.log[j].error.Some?
  {
    if c.done.Some? {
      assert j == |c.log| - 1;
    }
  }

  lemma ErrorNamesCause(e: Ending)
    ensures ErrorOf(e) == Some(DENIED) <==> e == DeniedByRule
    ensures ErrorOf(e) == Some(OUTAGE) <==> e == DeniedByOutage
    ensures ErrorOf(e) == Some(REJECTED) <==> e == DeniedByHuman
    ensures ErrorOf(e) == Some(TIMEOUT) <==> e == DeniedByTimeout
  {
    ErrorTypesDistinct();
  }

  /** What each error type on a denial says: what the provider last replied when asked about the
      call, and for a review whether it was answered in time and how. */
  predicate ErrorFits(error: Option<string>, d: Done, replies: seq<Transport>) {
    && error.Some? && replies != []
    && (error == Some(OUTAGE) <==> !DecidesAny(replies[|replies| - 1]))
    && (error == Some(DENIED) <==> Decides(replies[|replies| - 1], Deny))
    && (error == Some(REJECTED) <==> WasHeld(d, replies) && InTime(d) && !Approves(d.response.value))
    && (error == Some(TIMEOUT) <==> WasHeld(d, replies) && !InTime(d))
  }

  lemma FactsFit(mode: FailMode, d: Done, replies: seq<Transport>, execs: seq<Exec>)
    requires Facts(mode, d, replies, execs) && ErrorOf(d.ending).Some?
    ensures ErrorFits(ErrorOf(d.ending), d, replies)
  {
    ErrorNamesCause(d.ending);
    OneVerdict(mode, replies[|replies| - 1]);
  }

  /** Causes of denial stay distinguishable: over all denial records any run emits, the error
      type says exactly what the provider replied, or how and when the review was answered. The
      events of the run behind that are traced. */
  lemma DenialCauses(cfg: Config, es: seq<Event>, k: nat) returns (n: nat, m: nat, j: nat)
    requires k < |Run(cfg, es).log| && Run(cfg, es).log[k].item.result.verdict == Deny
    requires Good(es, Run(cfg, es).log[k].task)
    ensures var s := Run(cfg, es); var t, rec := s.log[k].task, s.log[k].item;
            && Traced(cfg, es, t, n, m, j)
            && ErrorFits(rec.error, s.done[t], Of(s.replies, t))
  {
    var s := Run(cfg, es);
    var t := s.log[k].task;
    RunLocal(cfg, es, t);
    RunKeeps(cfg, es, t);
    var p := OfContains(s.log, k);
    DenialInCell(cfg, CellRun(cfg, es, t), t, p);
    assert Look(s.done, t) == CellRun(cfg, es, t).done;
    FactsFit(cfg.failMode, s.done[t], Of(s.replies, t), Of(s.execs, t));
    n, m, j := EndingTraced(cfg, es, t);
  }

  // ---------------------------------------------------------------- why a tool ran

  /** The provider was asked on the very pass the tool ran on, and its reply decided an allow, or
      under fail-open nothing. */
  predicate DirectLicense(cfg: Config, es: seq<Event>, t: Task, reply: Transport, j: nat) {
    && Asks(cfg, es, t, j) && es[j].env.reply == reply
    && (Decides(reply, Allow) || (cfg.failMode == Open && !DecidesAny(reply)))
  }

  /** The n-th pass asked and got a review, then the m-th event gave a response that approves, and
      the tool ran by the deadline. */
  predicate ReviewLicense(cfg: Config, es: seq<Event>, t: Task, x: Exec, n: nat, m: nat, j: nat)
    requires x.via.Reviewed?
  {
    && n < m && Asks(cfg, es, t, n) && Decides(es[n].env.reply, Verdict.Review)
    && Gives(cfg, es, t, x.via.response, m, j) && Approves(x.via.response)
    && FromIso(x.via.deadline).Some? && x.at <= FromIso(x.via.deadline).value
  }

  /** What an execution rests on: the reply to the very pass it happened on, or a review that an
      earlier pass was answered with, followed by a response that approves, in time. */
  predicate Licensed(cfg: Config, es: seq<Event>, t: Task, x: Exec, n: nat, m: nat, j: nat) {
    && j < |es| && About(es[j], t)
    && Run(cfg, es[..j]).now == x.at && Of(Run(cfg, es[..j]).execs, t) == []
    && (x.via.Direct? ==> DirectLicense(cfg, es, t, x.via.reply, j))
    && (x.via.Reviewed? ==> ReviewLicense(cfg, es, t, x, n, m, j))
  }

  lemma ExecutionOf(cfg: Config, es: seq<Event>, k: nat)
    requires k < |Run(cfg, es).execs| && Good(es, Run(cfg, es).execs[k].task)
    ensures var s := Run(cfg, es); var t, x := s.execs[k].task, s.execs[k].item;
            && t in s.done && Of(s.execs, t) == [x]
            && Facts(cfg.failMode, s.done[t], Of(s.replies, t), [x])
  {
    var s := Run(cfg, es);
    var t, x := s.execs[k].task, s.execs[k].item;
    EndingsExplained(cfg, es, t);
    var p := OfContains(s.execs, k);
    assert Of(s.execs, t)[p] == x;
    assert Of(s.execs, t) == [x];
  }

  /** The endings an execution can have. */
  lemma ExecutionFacts(mode: FailMode, d: Done, replies: seq<Transport>, x: Exec)
    requires Facts(mode, d, replies, [x])
    ensures x.at == d.at
    ensures x.via.Direct? ==>
              && d.response.None? && replies != [] && x.via.reply == replies[|replies| - 1]
              && (Decides(x.via.reply, Allow) || (mode == Open && !DecidesAny(x.via.reply)))
    ensures x.via.Reviewed? ==>
              && d.response == Some(x.via.response) && Approves(x.via.response)
              && FromIso(x.via.deadline).Some? && x.at <= FromIso(x.via.deadline).value
  {
  }

  lemma TracedLicense(cfg: Config, es: seq<Event>, t: Task, x: Exec, n: nat, m: nat, j: nat)
    requires Traced(cfg, es, t, n, m, j)
    requires var s := Run(cfg, es); Facts(cfg.failMode, s.done[t], Of(s.replies, t), [x])
    ensures Licensed(cfg, es, t, x, n, m, j)
  {
    var s := Run(cfg, es);
    ExecutionFacts(cfg.failMode, s.done[t], Of(s.replies, t), x);
  }

  /** Why a tool ran, in every run. Either the provider was asked on that very pass and its reply
      decided an allow (or, under fail-open only, decided nothing at all); or it was asked on an
      earlier pass and its reply decided a review with an integer window, the call was then given
      a response that approves, nothing else answered it since, and the tool ran no later than
      the deadline the response was resolved against. The call ran once, and is over. */
  lemma Provenance(cfg: Config, es: seq<Event>, k: nat) returns (n: nat, m: nat, j: nat)
    requires k < |Run(cfg, es).execs| && Good(es, Run(cfg, es).execs[k].task)
    ensures var s := Run(cfg, es); var t, x := s.execs[k].task, s.execs[k].item;
            && t in s.done && s.done[t].at == x.at && Of(s.execs, t) == [x]
            && Licensed(cfg, es, t, x, n, m, j)
  {
    var s := Run(cfg, es);
    ExecutionOf(cfg, es, k);
    n, m, j := EndingTraced(cfg, es, s.execs[k].task);
    TracedLicense(cfg, es, s.execs[k].task, s.execs[k].item, n, m, j);
  }
}
