/** Where the documented guarantee stops. It says that an expired hold never resolves to approval,
    whatever fails; this module says exactly when one does, pass by pass, and gives a run for each
    way it happens. */
module Lateness {
  import opened Text
  import opened Json
  import opened Domain
  import opened Opa
  import opened Review
  import opened Protocol
  import opened Cells
  import opened Locality
  import opened Histories
  import opened Deadlines

  // ---------------------------------------------------------------- exactly when an answer runs the tool

  /** The deadline of the hold a body has at hand: the one in memory, else the one it reads back,
      else a fresh one. */
  function AtHand(cfg: Config, c: Cell, env: Env): string {
    if c.entry.Some? then c.entry.value.hold.deadline
    else if env.stateReadable && SlotHold(c.slot).Some? then SlotHold(c.slot).value.deadline
    else Iso(c.now + EffectiveWindow(cfg, env.reply))
  }

  /** The deadline a response is resolved against: its own, if it is itself a hold. */
  function Against(cfg: Config, c: Cell, env: Env, response: Json): string {
    if FromPayload(response).Some? then FromPayload(response).value.deadline else AtHand(cfg, c, env)
  }

  predicate StillOpen(deadline: string, now: int) {
    FromIso(deadline).Some? && now <= FromIso(deadline).value
  }

  /** The pass comes to review: memory has the hold, or the provider answers with a review the
      adapter can enforce. */
  predicate Reaches(cfg: Config, c: Cell, env: Env) {
    c.entry.Some? || (Decides(env.reply, Verdict.Review) && CanHold(cfg))
  }

  /** The tool ran on an approval. */
  predicate RanByReview(execs: seq<Exec>) {
    execs != [] && execs[|execs| - 1].via.Reviewed?
  }

  lemma ConcludingRuns(c: Cell, i: Intent, r: ControlResult, h: Hold, response: Json, replay: bool, env: Env)
    requires c.execs == []
    ensures var d := Governing(h, response).deadline;
            Concluding(c, i, r, h, response, replay, env).execs ==
            if Approves(response) && StillOpen(d, c.now) then [Exec(c.now, Reviewed(response, d))] else []
  {
    ResolveExact(Governing(h, response), response, r, c.now);
  }

  lemma TurnAtHand(cfg: Config, c: Cell, i: Intent, env: Env)
    requires Places(c, Key(i)) && c.done.None?
    ensures var turn := CellTurn(cfg, c, i, env);
            && (turn.Reviewing? <==> Reaches(cfg, c, env))
            && (turn.Reviewing? ==>
                  && turn.hold.deadline == AtHand(cfg, c, env)
                  && turn.cell == (if turn.source.Memory? then c else c.(replies := c.replies + [env.reply])))
  {
    if c.entry.None? {
      Classified(cfg.failMode, env.reply, Collected(env.gathered));
      if Decides(env.reply, Verdict.Review) {
        ReviewWindow(cfg, i, env, c.now);
      }
    }
  }

  /** When a pass with this answer in force runs the tool on it: it comes to review, the answer
      approves, and the deadline it is resolved against has not passed. */
  predicate RunsOn(cfg: Config, c: Cell, env: Env, response: Json) {
    Reaches(cfg, c, env) && Approves(response) && StillOpen(Against(cfg, c, env, response), c.now)
  }

  lemma ReviewingRuns(c: Cell, i: Intent, r: ControlResult, h: Hold, source: Source, env: Env, response: Json)
    requires c.execs == [] && c.response == Some(response)
    ensures var d := Governing(h, response).deadline;
            HeldPass(c, i, r, h, source, env).execs ==
            if Approves(response) && StillOpen(d, c.now) then [Exec(c.now, Reviewed(response, d))] else []
  {
    var c1 := if source.Memory? then c
              else Logged(c.(entry := Some(Entry(r, h))), PendingRecord(i, r, h, true));
    ConcludingRuns(c1, i, r, h, response, !source.Memory?, env);
  }

  lemma StraightRuns(c: Cell, i: Intent, r: ControlResult, env: Env)
    requires c.execs == []
    ensures !RanByReview(DirectPass(c, i, r, env).execs)
  {
  }

  lemma TurnRuns(turn: Turn, i: Intent, env: Env, response: Json)
    requires turn.cell.execs == [] && turn.cell.response == Some(response)
    ensures RanByReview(Taken(turn, i, env).execs) <==>
            turn.Reviewing? && Approves(response) && StillOpen(Governing(turn.hold, response).deadline, turn.cell.now)
    ensures RanByReview(Taken(turn, i, env).execs) ==>
              Taken(turn, i, env).execs ==
              [Exec(turn.cell.now, Reviewed(response, Governing(turn.hold, response).deadline))]
  {
    match turn
    case Idle(_) =>
    case Straight(c, r) => StraightRuns(c, i, r, env);
    case Reviewing(c, r, h, source) => ReviewingRuns(c, i, r, h, source, env, response);
  }

  lemma AnsweredTurnRuns(cfg: Config, c: Cell, i: Intent, response: Json, env: Env)
    requires Places(c, Key(i)) && c.done.None? && c.execs == [] && c.response == Some(response)
    ensures var execs := Taken(CellTurn(cfg, c, i, env), i, env).execs;
            && (RanByReview(execs) <==> RunsOn(cfg, c, env, response))
            && (RunsOn(cfg, c, env, response) ==>
                  execs == [Exec(c.now, Reviewed(response, Against(cfg, c, env, response)))])
  {
    TurnAtHand(cfg, c, i, env);
    TurnCell(cfg, c, i, env);
    TurnRuns(CellTurn(cfg, c, i, env), i, env, response);
  }

  lemma TurnCell(cfg: Config, c: Cell, i: Intent, env: Env)
    ensures var c1 := CellTurn(cfg, c, i, env).cell; c1 == c || c1 == c.(replies := c.replies + [env.reply])
  {
  }

  /** An answer meets the turn of the call with that response in force. */
  lemma AnswerTakes(cfg: Config, c: Cell, i: Intent, response: Json, env: Env)
    requires c.slot.Some?
    ensures CellApply(cfg, c, Resume(i, response, env), Key(i)) ==
            Taken(CellTurn(cfg, c.(response := Some(response)), i, env), i, env)
  {
  }

  lemma AnswerIndifferent(cfg: Config, c: Cell, response: Json, env: Env)
    ensures var c0 := c.(response := Some(response));
            && RunsOn(cfg, c0, env, response) == RunsOn(cfg, c, env, response)
            && Against(cfg, c0, env, response) == Against(cfg, c, env, response)
  {
  }

  lemma AnswerRuns(cfg: Config, c: Cell, i: Intent, response: Json, env: Env)
    requires Places(c, Key(i)) && c.done.None? && c.execs == [] && c.slot.Some?
    ensures var execs := CellApply(cfg, c, Resume(i, response, env), Key(i)).execs;
            && (RanByReview(execs) <==> RunsOn(cfg, c, env, response))
            && (RunsOn(cfg, c, env, response) ==>
                  execs == [Exec(c.now, Reviewed(response, Against(cfg, c, env, response)))])
  {
    var c0 := c.(response := Some(response));
    AnswerTakes(cfg, c, i, response, env);
    AnsweredTurnRuns(cfg, c0, i, response, env);
    AnswerIndifferent(cfg, c, response, env);
  }

  lemma CellPlaces(cfg: Config, es: seq<Event>, t: Task)
    ensures Places(CellRun(cfg, es, t), t)
  {
    RunKeeps(cfg, es, t);
  }

  lemma RunPlaces(cfg: Config, es: seq<Event>, t: Task)
    requires Good(es, t)
    ensures var c := View(Run(cfg, es), t); Places(c, t) && (c.done.None? ==> c.execs == [])
  {
    RunLocal(cfg, es, t);
    RunKeeps(cfg, es, t);
  }

  /** Answering a held call, in any reachable state, runs the tool exactly under RunsOn, and then
      the execution rests on that answer and that deadline. */
  lemma ResumeRunsExactly(cfg: Config, es: seq<Event>, i: Intent, response: Json, env: Env)
    requires Good(es, Key(i)) && WellFormed(i) && Stored(Run(cfg, es).board, Key(i)).Some?
    ensures var s := Run(cfg, es); var c := View(s, Key(i));
            var after := Of(Apply(cfg, s, Resume(i, response, env)).execs, Key(i));
            && (RanByReview(after) <==> RunsOn(cfg, c, env, response))
            && (RunsOn(cfg, c, env, response) ==>
                  after == [Exec(s.now, Reviewed(response, Against(cfg, c, env, response)))])
  {
    var s, t := Run(cfg, es), Key(i);
    RunLocal(cfg, es, t);
    RunPlaces(cfg, es, t);
    EventLocal(cfg, s, Resume(i, response, env), t);
    AnswerRuns(cfg, View(s, t), i, response, env);
  }

  /** How an answer that comes to review ends the call: late, approved or rejected; or not at all, if
      the deadline it is resolved against is no time. */
  predicate EndedBy(done: Option<Done>, deadline: string, response: Json, now: int) {
    if FromIso(deadline).None? then done == None
    else
      && done.Some? && done.value.at == now && done.value.response == Some(response)
      && done.value.ending == (if now > FromIso(deadline).value then DeniedByTimeout
                               else if Approves(response) then RanApproved else DeniedByHuman)
  }

  lemma ConcludingEnds(c: Cell, i: Intent, r: ControlResult, h: Hold, response: Json, replay: bool, env: Env)
    requires c.done.None?
    ensures EndedBy(Concluding(c, i, r, h, response, replay, env).done, Governing(h, response).deadline, response,
                    c.now)
  {
    ResolveExact(Governing(h, response), response, r, c.now);
  }

  lemma ReviewingEnds(c: Cell, i: Intent, r: ControlResult, h: Hold, source: Source, env: Env, response: Json)
    requires c.done.None? && c.response == Some(response)
    ensures EndedBy(HeldPass(c, i, r, h, source, env).done, Governing(h, response).deadline, response, c.now)
  {
    var c1 := if source.Memory? then c
              else Logged(c.(entry := Some(Entry(r, h))), PendingRecord(i, r, h, true));
    ConcludingEnds(c1, i, r, h, response, !source.Memory?, env);
  }

  lemma AnsweredTurnEnds(cfg: Config, c: Cell, i: Intent, response: Json, env: Env)
    requires Places(c, Key(i)) && c.done.None? && c.response == Some(response) && Reaches(cfg, c, env)
    ensures EndedBy(Taken(CellTurn(cfg, c, i, env), i, env).done, Against(cfg, c, env, response), response, c.now)
  {
    TurnAtHand(cfg, c, i, env);
    var turn := CellTurn(cfg, c, i, env);
    ReviewingEnds(turn.cell, i, turn.result, turn.hold, turn.source, env, response);
  }

  lemma AnswerEnds(cfg: Config, c: Cell, i: Intent, response: Json, env: Env)
    requires Places(c, Key(i)) && c.done.None? && c.slot.Some? && Reaches(cfg, c, env)
    ensures EndedBy(CellApply(cfg, c, Resume(i, response, env), Key(i)).done, Against(cfg, c, env, response),
                    response, c.now)
  {
    AnswerTakes(cfg, c, i, response, env);
    AnsweredTurnEnds(cfg, c.(response := Some(response)), i, response, env);
    AnswerIndifferent(cfg, c, response, env);
  }

  /** An answer that comes to review ends the call, in any reachable state: late, approved or rejected
      by the deadline it is resolved against and what it says. */
  lemma ResumeEndsExactly(cfg: Config, es: seq<Event>, i: Intent, response: Json, env: Env)
    requires Good(es, Key(i)) && WellFormed(i) && Stored(Run(cfg, es).board, Key(i)).Some?
    requires Reaches(cfg, View(Run(cfg, es), Key(i)), env)
    ensures var s := Run(cfg, es); var c := View(s, Key(i));
            EndedBy(Look(Apply(cfg, s, Resume(i, response, env)).done, Key(i)), Against(cfg, c, env, response),
                    response, s.now)
  {
    var s, t := Run(cfg, es), Key(i);
    RunLocal(cfg, es, t);
    RunPlaces(cfg, es, t);
    EventLocal(cfg, s, Resume(i, response, env), t);
    AnswerEnds(cfg, View(s, t), i, response, env);
    assert Look(Apply(cfg, s, Resume(i, response, env)).done, t) ==
           View(Apply(cfg, s, Resume(i, response, env)), t).done;
  }

  /** How an expired hold can be approved: the answer is itself a hold that is still open; or memory
      has a hold that is still open, unlike the stored one; or memory has none, the state is
      unreadable, and the window is not negative. */
  predicate Overtakes(cfg: Config, c: Cell, env: Env, response: Json) {
    if FromPayload(response).Some? then StillOpen(FromPayload(response).value.deadline, c.now)
    else if c.entry.Some? then StillOpen(c.entry.value.hold.deadline, c.now)
    else !env.stateReadable && EffectiveWindow(cfg, env.reply) >= 0
  }

  lemma OvertakesExactly(cfg: Config, c: Cell, env: Env, response: Json)
    requires SlotHold(c.slot).Some? && !StillOpen(SlotHold(c.slot).value.deadline, c.now)
    ensures StillOpen(Against(cfg, c, env, response), c.now) <==> Overtakes(cfg, c, env, response)
  {
    ParseIntText(c.now + EffectiveWindow(cfg, env.reply));
  }

  /** Exactly when answering a call whose stored hold has expired runs the tool: the pass comes to
      review, the answer approves, and one of the three ways round the stored deadline is open. */
  lemma ExpiredHoldRuns(cfg: Config, es: seq<Event>, i: Intent, response: Json, env: Env)
    requires Good(es, Key(i)) && WellFormed(i) && Stored(Run(cfg, es).board, Key(i)).Some?
    requires var c := View(Run(cfg, es), Key(i));
             SlotHold(c.slot).Some? && !StillOpen(SlotHold(c.slot).value.deadline, c.now)
    ensures var s := Run(cfg, es); var c := View(s, Key(i));
            RanByReview(Of(Apply(cfg, s, Resume(i, response, env)).execs, Key(i))) <==>
            Reaches(cfg, c, env) && Approves(response) && Overtakes(cfg, c, env, response)
  {
    ResumeRunsExactly(cfg, es, i, response, env);
    OvertakesExactly(cfg, View(Run(cfg, es), Key(i)), env, response);
  }

  /** The second way needs a pass that strayed before: otherwise memory has the stored hold. */
  lemma MemoryOvertakesNever(cfg: Config, es: seq<Event>, t: Task)
    requires Good(es, t) && Never(cfg, Straying, es, t) && IdOf(t) in Run(cfg, es).pending
    requires var s := Run(cfg, es); Stored(s.board, t).Some? && FromPayload(Stored(s.board, t).value).Some?
    ensures var s := Run(cfg, es);
            s.pending[IdOf(t)].hold.deadline == FromPayload(Stored(s.board, t).value).value.deadline
  {
    PendingAgreesWithCheckpoint(cfg, es, t);
    RoundTrip(Run(cfg, es).pending[IdOf(t)].hold);
  }

  // ---------------------------------------------------------------- which deadline governs

  /** Answering the call n seconds from now runs the tool. */
  predicate RunsAfter(cfg: Config, es: seq<Event>, i: Intent, response: Json, env: Env, n: nat) {
    RanByReview(Of(Run(cfg, es + [Tick(n)] + [Resume(i, response, env)]).execs, Key(i)))
  }

  /** The deadline is still open n seconds from now. */
  predicate OpenAfter(deadline: string, now: int, n: nat) {
    StillOpen(deadline, now + n)
  }

  /** Whenever the response is given, it runs the tool exactly if it approves and the deadline d has
      not passed. */
  ghost predicate Governs(cfg: Config, es: seq<Event>, i: Intent, response: Json, env: Env, d: string) {
    forall n: nat :: RunsAfter(cfg, es, i, response, env, n) <==>
      Approves(response) && OpenAfter(d, Run(cfg, es).now, n)
  }

  /** The deadline that counts for a call with this one stored. */
  function Counting(stored: string, response: Json): string {
    if FromPayload(response).Some? then FromPayload(response).value.deadline else stored
  }

  /** The deadline of a call's stored hold, also held in memory. */
  predicate HeldInMemory(s: Sys, t: Task, stored: string) {
    IdOf(t) in s.pending && SlotHold(Stored(s.board, t)).Some? && SlotHold(Stored(s.board, t)).value.deadline == stored
  }

  lemma MemoryRuns(cfg: Config, es: seq<Event>, i: Intent, response: Json, env: Env, stored: string)
    requires Good(es, Key(i)) && WellFormed(i) && Never(cfg, Straying, es, Key(i))
    requires HeldInMemory(Run(cfg, es), Key(i), stored)
    ensures RanByReview(Of(Apply(cfg, Run(cfg, es), Resume(i, response, env)).execs, Key(i))) <==>
            Approves(response) && StillOpen(Counting(stored, response), Run(cfg, es).now)
  {
    MemoryOvertakesNever(cfg, es, Key(i));
    ResumeRunsExactly(cfg, es, i, response, env);
  }

  /** For a call held in memory, the deadline that counts is the response's own if it has one, else
      the stored one. */
  lemma AnswerAfter(cfg: Config, es: seq<Event>, i: Intent, response: Json, env: Env, n: nat, stored: string)
    requires Good(es, Key(i)) && WellFormed(i) && Never(cfg, Straying, es, Key(i))
    requires HeldInMemory(Run(cfg, es), Key(i), stored)
    ensures RunsAfter(cfg, es, i, response, env, n) <==>
            Approves(response) && OpenAfter(Counting(stored, response), Run(cfg, es).now, n)
  {
    var later := es + [Tick(n)];
    RunStep(cfg, es, Tick(n));
    NeverSplits(cfg, Straying, es, Tick(n), Key(i));
    MemoryRuns(cfg, later, i, response, env, stored);
    RunStep(cfg, later, Resume(i, response, env));
  }

  /** Two deadlines are open at the same moments from now on exactly if they are the same moment, or
      both have passed. */
  lemma OpenAlike(a: string, b: string, now: int)
    ensures (forall n: nat :: OpenAfter(a, now, n) == OpenAfter(b, now, n)) <==>
            FromIso(a) == FromIso(b) || (!StillOpen(a, now) && !StillOpen(b, now))
  {
    if StillOpen(a, now) || StillOpen(b, now) {
      var x, y := FromIso(a).GetOr(now), FromIso(b).GetOr(now);
      var later := if FromIso(a).None? then y else if FromIso(b).None? then x else if x < y then y else x;
      assert FromIso(a) != FromIso(b) ==> OpenAfter(a, now, later - now) != OpenAfter(b, now, later - now);
    }
  }

  /** The documented rule is that only the stored deadline counts, never one in the response. For a
      call held in memory it holds, whenever the response is given, exactly if the response does not
      approve, or is no hold itself, or its deadline is the stored one, or both have passed. */
  lemma StoredDeadlineGoverns(cfg: Config, es: seq<Event>, i: Intent, response: Json, env: Env, stored: string)
    requires Good(es, Key(i)) && WellFormed(i) && Never(cfg, Straying, es, Key(i))
    requires HeldInMemory(Run(cfg, es), Key(i), stored)
    ensures var now, own := Run(cfg, es).now, FromPayload(response);
            Governs(cfg, es, i, response, env, stored) <==>
            || !Approves(response) || own.None? || FromIso(own.value.deadline) == FromIso(stored)
            || (!StillOpen(own.value.deadline, now) && !StillOpen(stored, now))
  {
    var now, counting := Run(cfg, es).now, Counting(stored, response);
    forall n: nat
      ensures RunsAfter(cfg, es, i, response, env, n) <==> Approves(response) && OpenAfter(counting, now, n)
    {
      AnswerAfter(cfg, es, i, response, env, n, stored);
    }
    OpenAlike(counting, stored, now);
    if n: nat :| OpenAfter(counting, now, n) != OpenAfter(stored, now, n) {
      assert Approves(response) ==>
          RunsAfter(cfg, es, i, response, env, n) != OpenAfter(stored, now, n);
    }
  }

  // ---------------------------------------------------------------- exactly when a pass moves the deadline

  function StoredDeadline(b: Board, t: Task): Option<string> {
    if SlotHold(Stored(b, t)).Some? then Some(SlotHold(Stored(b, t)).value.deadline) else None
  }

  lemma StoringPass(c: Cell, i: Intent, r: ControlResult, h: Hold, source: Source, env: Env)
    requires c.response.None?
    ensures SlotHold(HeldPass(c, i, r, h, source, env).slot) == Some(h)
  {
    RoundTrip(h);
  }

  lemma UnansweredCell(cfg: Config, c: Cell, i: Intent, env: Env)
    requires Places(c, Key(i)) && Agreed(c) && c.slot.Some? && c.response.None?
    ensures var h := SlotHold(CellPass(cfg, c, i, env).slot);
            h.Some? && h.value.deadline != SlotHold(c.slot).value.deadline <==> PassSlips(cfg, Moving, c, env)
  {
    TurnAtHand(cfg, c, i, env);
    match CellTurn(cfg, c, i, env)
    case Idle(_) =>
    case Straight(_, _) =>
    case Reviewing(c1, r, h, source) =>
      StoringPass(c1, i, r, h, source, env);
      RoundTrip(h);
  }

  lemma UnansweredRun(cfg: Config, es: seq<Event>, i: Intent, env: Env)
    requires Good(es, Key(i)) && WellFormed(i) && Never(cfg, Straying, es, Key(i))
    requires var c := View(Run(cfg, es), Key(i)); c.slot.Some? && c.response.None?
    ensures var s := Run(cfg, es); var t := Key(i);
            StoredDeadline(Apply(cfg, s, Call(i, env)).board, t) !in {None, StoredDeadline(s.board, t)} <==>
            PassSlips(cfg, Moving, View(s, t), env)
  {
    var s, t := Run(cfg, es), Key(i);
    RunAgreed(cfg, es, t);
    EventLocal(cfg, s, Call(i, env), t);
    UnansweredCell(cfg, View(s, t), i, env);
    assert View(Apply(cfg, s, Call(i, env)), t).slot == Stored(Apply(cfg, s, Call(i, env)).board, t);
  }

  lemma MovingMeans(cfg: Config, c: Cell, env: Env)
    requires c.done.None? && SlotHold(c.slot).Some?
    ensures PassSlips(cfg, Moving, c, env) <==>
            && c.entry.None? && !env.stateReadable
            && Decides(env.reply, Verdict.Review) && CanHold(cfg)
            && SlotHold(c.slot).value.deadline != Iso(c.now + EffectiveWindow(cfg, env.reply))
  {
  }

  /** Exactly when a pass over a held, unanswered call changes the deadline that is stored: memory
      has no entry, the state is unreadable, the provider answers with a review the adapter can
      enforce, and the new deadline differs. */
  lemma UnansweredPassMoves(cfg: Config, es: seq<Event>, i: Intent, env: Env)
    requires Good(es, Key(i)) && WellFormed(i) && Never(cfg, Straying, es, Key(i))
    requires var c := View(Run(cfg, es), Key(i)); SlotHold(c.slot).Some? && c.response.None?
    ensures var s := Run(cfg, es); var t := Key(i); var c := View(s, t);
            StoredDeadline(Apply(cfg, s, Call(i, env)).board, t) !in {None, StoredDeadline(s.board, t)} <==>
            && c.entry.None? && !env.stateReadable
            && Decides(env.reply, Verdict.Review) && CanHold(cfg)
            && SlotHold(c.slot).value.deadline != Iso(c.now + EffectiveWindow(cfg, env.reply))
  {
    RunPlaces(cfg, es, Key(i));
    UnansweredRun(cfg, es, i, env);
    MovingMeans(cfg, View(Run(cfg, es), Key(i)), env);
  }

  // ---------------------------------------------------------------- a run for each way

  /** The tool ran once, on an approval, after the deadline in the call's first record. */
  predicate RanLate(cfg: Config, es: seq<Event>, t: Task) {
    var s := Run(cfg, es);
    var log, execs := Of(s.log, t), Of(s.execs, t);
    && |execs| == 1 && execs[0].via.Reviewed?
    && log != [] && IsPending(log[0]) && log[0].deadline.Some?
    && FromIso(log[0].deadline.value).Some? && execs[0].at > FromIso(log[0].deadline.value).value
  }

  /** Nothing else makes a call run late: some pass moved its deadline, or the approval it ran on is
      itself a hold. */
  lemma LateCauses(cfg: Config, es: seq<Event>, t: Task)
    requires Good(es, t) && RanLate(cfg, es, t)
    ensures !Never(cfg, Moving, es, t) || FromPayload(Of(Run(cfg, es).execs, t)[0].via.response).Some?
  {
    var s := Run(cfg, es);
    var x := Of(s.execs, t)[0];
    EndingsExplained(cfg, es, t);
    assert Of(s.execs, t) == [x];
    if Never(cfg, Moving, es, t) && FromPayload(x.via.response).None? {
      var n0, m, j := EndingTraced(cfg, es, t);
      TracedLicense(cfg, es, t, x, n0, m, j);
      var n := ReviewedInTime(cfg, es, t, x, m, j);
    }
  }

  /** A provider that sends the call to review, with a window that is not negative. */
  predicate Holding(cfg: Config, env: Env) {
    && Decides(env.reply, Verdict.Review) && CanHold(cfg)
    && EffectiveWindow(cfg, env.reply) >= 0
  }

  /** The call is held, and its window passes. */
  function Opening(cfg: Config, i: Intent, env: Env): seq<Event>
    requires Holding(cfg, env)
  {
    [Call(i, env), Tick(EffectiveWindow(cfg, env.reply) + 1)]
  }

  function FirstHold(cfg: Config, i: Intent, env: Env): Hold
    requires Authorized(cfg, env).Answered?
  {
    BuildHold(i, Authorized(cfg, env).result, cfg.fallback, 0)
  }

  lemma Opened(cfg: Config, i: Intent, env: Env)
    requires WellFormed(i) && Holding(cfg, env)
    ensures Authorized(cfg, env).Answered?
    ensures var c := CellRun(cfg, Opening(cfg, i, env), Key(i)); var h := FirstHold(cfg, i, env);
            && c.now == EffectiveWindow(cfg, env.reply) + 1
            && c.slot == Some(ToPayload(h)) && c.response.None? && c.done.None? && c.execs == []
            && c.entry == Some(Entry(Authorized(cfg, env).result, h))
            && c.log == [PendingRecord(i, Authorized(cfg, env).result, h, false)]
            && h.holdId == HoldId(i) && FromIso(h.deadline) == Some(EffectiveWindow(cfg, env.reply))
  {
    ReviewWindow(cfg, i, env, 0);
    Classified(cfg.failMode, env.reply, Collected(env.gathered));
    ParseIntText(EffectiveWindow(cfg, env.reply));
    var wait := Tick(EffectiveWindow(cfg, env.reply) + 1);
    CellRunStep(cfg, [], Call(i, env), Key(i));
    CellRunStep(cfg, [Call(i, env)], wait, Key(i));
    assert [] + [Call(i, env)] == [Call(i, env)];
    assert [Call(i, env)] + [wait] == Opening(cfg, i, env);
  }

  /** What is needed of a call for the next answer to run it. */
  predicate Waiting(c: Cell, t: Task) {
    Places(c, t) && c.done.None? && c.execs == [] && c.slot.Some?
  }

  lemma FirstRecord(cfg: Config, i: Intent, env: Env, es: seq<Event>)
    requires WellFormed(i) && Holding(cfg, env) && Opening(cfg, i, env) <= es
    ensures var log := CellRun(cfg, es, Key(i)).log;
            && log != [] && IsPending(log[0]) && log[0].deadline.Some?
            && FromIso(log[0].deadline.value) == Some(EffectiveWindow(cfg, env.reply))
  {
    Opened(cfg, i, env);
    var start := Opening(cfg, i, env);
    assert start + es[|start|..] == es;
    RunGrows(cfg, start, es[|start|..], Key(i));
    assert CellRun(cfg, es, Key(i)).log[0] == CellRun(cfg, start, Key(i)).log[0];
  }

  /** A run that opens the call so, lets its window pass, and then meets an answer that runs the
      tool, ran it late. */
  lemma LateAnswer(cfg: Config, i: Intent, env: Env, es: seq<Event>, response: Json, last: Env)
    requires WellFormed(i) && Holding(cfg, env) && Good(es, Key(i)) && Opening(cfg, i, env) <= es
    requires var c := CellRun(cfg, es, Key(i));
             && Waiting(c, Key(i)) && c.now > EffectiveWindow(cfg, env.reply)
             && RunsOn(cfg, c, last, response)
    ensures RanLate(cfg, es + [Resume(i, response, last)], Key(i))
  {
    var answer := Resume(i, response, last);
    AnswerRuns(cfg, CellRun(cfg, es, Key(i)), i, response, last);
    CellRunStep(cfg, es, answer, Key(i));
    FirstRecord(cfg, i, env, es + [answer]);
    RunLocal(cfg, es + [answer], Key(i));
  }

  lemma OpeningWaits(cfg: Config, i: Intent, env: Env)
    requires WellFormed(i) && Holding(cfg, env)
    ensures var es := Opening(cfg, i, env); var c := CellRun(cfg, es, Key(i));
            Good(es, Key(i)) && Waiting(c, Key(i)) && c.response.None? && c.now > EffectiveWindow(cfg, env.reply)
  {
    Opened(cfg, i, env);
    RunKeeps(cfg, Opening(cfg, i, env), Key(i));
  }

  /** The call is held, its window passes, and memory is lost. */
  function Lost(cfg: Config, i: Intent, env: Env): seq<Event>
    requires Holding(cfg, env)
  {
    Opening(cfg, i, env) + [LoseMemory]
  }

  lemma LostWaits(cfg: Config, i: Intent, env: Env)
    requires WellFormed(i) && Holding(cfg, env)
    ensures var es := Lost(cfg, i, env); var c := CellRun(cfg, es, Key(i));
            && Good(es, Key(i)) && Waiting(c, Key(i))
            && c.entry.None? && c.response.None? && c.now > EffectiveWindow(cfg, env.reply)
  {
    OpeningWaits(cfg, i, env);
    CellRunStep(cfg, Opening(cfg, i, env), LoseMemory, Key(i));
  }

  /** First way: memory is lost, and the approval finds the state unreadable. */
  lemma LateByUnreadableAnswer(cfg: Config, i: Intent, env: Env, blind: Env, response: Json)
    requires WellFormed(i) && Holding(cfg, env) && Holding(cfg, blind) && !blind.stateReadable
    requires Approves(response) && FromPayload(response).None?
    ensures RanLate(cfg, Lost(cfg, i, env) + [Resume(i, response, blind)], Key(i))
  {
    LostWaits(cfg, i, env);
    ParseIntText(CellRun(cfg, Lost(cfg, i, env), Key(i)).now + EffectiveWindow(cfg, blind.reply));
    LateAnswer(cfg, i, env, Lost(cfg, i, env), response, blind);
  }

  /** What a pass that rebuilds a hold leaves in memory, whether it was answered or not. */
  predicate Renewed(c: Cell, t: Task) {
    Waiting(c, t) && c.entry.Some? && StillOpen(c.entry.value.hold.deadline, c.now)
  }

  lemma RenewedAnswer(cfg: Config, i: Intent, env: Env, es: seq<Event>, response: Json, last: Env)
    requires WellFormed(i) && Holding(cfg, env) && Good(es, Key(i)) && Opening(cfg, i, env) <= es
    requires var c := CellRun(cfg, es, Key(i)); Renewed(c, Key(i)) && c.now > EffectiveWindow(cfg, env.reply)
    requires Approves(response) && FromPayload(response).None?
    ensures RanLate(cfg, es + [Resume(i, response, last)], Key(i))
  {
    LateAnswer(cfg, i, env, es, response, last);
  }

  /** Rebuilding without an answer, or with one that cannot be resolved. */
  lemma HeldRenews(c: Cell, i: Intent, r: ControlResult, h: Hold, env: Env)
    requires c.done.None? && c.execs == [] && StillOpen(h.deadline, c.now)
    requires c.response.None? || Unresolvable(c)
    requires c.slot.Some?
    ensures var c' := HeldPass(c, i, r, h, Nowhere, env);
            && c'.entry == Some(Entry(r, h)) && c'.slot.Some? && c'.done.None? && c'.execs == [] && c'.now == c.now
  {
  }

  lemma PassRenews(cfg: Config, c: Cell, i: Intent, blind: Env)
    requires Waiting(c, Key(i)) && c.entry.None? && Holding(cfg, blind) && !blind.stateReadable
    requires c.response.None? || Unresolvable(c)
    ensures var c' := CellPass(cfg, c, i, blind);
            && c'.entry.Some? && StillOpen(c'.entry.value.hold.deadline, c'.now)
            && c'.slot.Some? && c'.done.None? && c'.execs == [] && c'.now == c.now
  {
    TurnAtHand(cfg, c, i, blind);
    ParseIntText(c.now + EffectiveWindow(cfg, blind.reply));
    var turn := CellTurn(cfg, c, i, blind);
    HeldRenews(turn.cell, i, turn.result, turn.hold, blind);
  }

  /** Second way: memory is lost, and a pass nobody answered finds the state unreadable. The fresh
      hold it stores is then approved, whatever can be read on that pass. */
  lemma LateByUnreadablePass(cfg: Config, i: Intent, env: Env, blind: Env, response: Json, last: Env)
    requires WellFormed(i) && Holding(cfg, env) && Holding(cfg, blind) && !blind.stateReadable
    requires Approves(response) && FromPayload(response).None?
    ensures RanLate(cfg, Lost(cfg, i, env) + [Call(i, blind)] + [Resume(i, response, last)], Key(i))
  {
    var es := Lost(cfg, i, env) + [Call(i, blind)];
    LostWaits(cfg, i, env);
    PassRenews(cfg, CellRun(cfg, Lost(cfg, i, env), Key(i)), i, blind);
    CellRunStep(cfg, Lost(cfg, i, env), Call(i, blind), Key(i));
    CellPlaces(cfg, es, Key(i));
    RenewedAnswer(cfg, i, env, es, response, last);
  }

  /** Third way: the approval carries a copy of the hold with a later deadline. Nothing is lost. */
  lemma LateByOwnDeadline(cfg: Config, i: Intent, env: Env, copy: Hold, last: Env)
    requires WellFormed(i) && Holding(cfg, env)
    requires StillOpen(copy.deadline, EffectiveWindow(cfg, env.reply) + 1)
    ensures RanLate(cfg, Opening(cfg, i, env) + [Resume(i, ApprovalWith(copy), last)], Key(i))
  {
    Opened(cfg, i, env);
    OpeningWaits(cfg, i, env);
    ApprovalWithCopy(copy);
    ApprovalWithApproves(copy);
    LateAnswer(cfg, i, env, Opening(cfg, i, env), ApprovalWith(copy), last);
  }

  lemma StrayRun(cfg: Config, es: seq<Event>, i: Intent, response: Json, blind: Env)
    requires var c := CellRun(cfg, es, Key(i));
             Waiting(c, Key(i)) && c.entry.None? && Holding(cfg, blind) && !blind.stateReadable
    requires FromPayload(response).Some? && FromIso(FromPayload(response).value.deadline).None?
    ensures var c := CellRun(cfg, es + [Resume(i, response, blind)], Key(i));
            && c.entry.Some? && StillOpen(c.entry.value.hold.deadline, c.now)
            && c.slot.Some? && c.done.None? && c.execs == [] && c.now == CellRun(cfg, es, Key(i)).now
  {
    var c := CellRun(cfg, es, Key(i));
    AnswerTakes(cfg, c, i, response, blind);
    PassRenews(cfg, c.(response := Some(response)), i, blind);
    CellRunStep(cfg, es, Resume(i, response, blind), Key(i));
  }

  lemma StrayRenews(cfg: Config, i: Intent, env: Env, blind: Env, broken: Hold)
    requires WellFormed(i) && Holding(cfg, env) && Holding(cfg, blind) && !blind.stateReadable
    requires FromIso(broken.deadline).None?
    ensures var es := Lost(cfg, i, env) + [Resume(i, ToPayload(broken), blind)]; var c := CellRun(cfg, es, Key(i));
            Good(es, Key(i)) && Renewed(c, Key(i)) && c.now > EffectiveWindow(cfg, env.reply)
  {
    RoundTrip(broken);
    LostWaits(cfg, i, env);
    StrayRun(cfg, Lost(cfg, i, env), i, ToPayload(broken), blind);
    CellPlaces(cfg, Lost(cfg, i, env) + [Resume(i, ToPayload(broken), blind)], Key(i));
  }

  /** Fourth way: memory is lost, and an answer that cannot be resolved (it is itself a hold, with a
      deadline that is no time) finds the state unreadable. Memory then has a hold that was never
      stored, and a second answer is resolved against it. */
  lemma LateByStray(cfg: Config, i: Intent, env: Env, blind: Env, broken: Hold, response: Json, last: Env)
    requires WellFormed(i) && Holding(cfg, env) && Holding(cfg, blind) && !blind.stateReadable
    requires FromIso(broken.deadline).None?
    requires Approves(response) && FromPayload(response).None?
    ensures RanLate(cfg, Lost(cfg, i, env) + [Resume(i, ToPayload(broken), blind)] + [Resume(i, response, last)],
                    Key(i))
  {
    var stray := Resume(i, ToPayload(broken), blind);
    StrayRenews(cfg, i, env, blind, broken);
    RenewedAnswer(cfg, i, env, Lost(cfg, i, env) + [stray], response, last);
  }
  // ---------------------------------------------------------------- the four runs written out

  const CONFIG := Config(Closed, 900, None)
  const CALL: Intent := Intent("agent", "deploy", JNull, "1", "1", None, Unknown, None, Some("call"), Some("thread"),
                               None)
  const REPLY := Response(200, Some(JObj(map["result" := JObj(map[
    "decision" := JStr("review"), "review_timeout_seconds" := JInt(60)])])))
  const SEEING := Env(None, REPLY, true, None)
  const BLIND := Env(None, REPLY, false, None)
  const YES := JStr("approve")
  const BROKEN := Hold("thread:call", "deploy", JNull, "", JNull, "soon", "")
  const LATER := Hold("thread:call", "deploy", JNull, "", JNull, Iso(100), "")

  lemma SampleHolds(env: Env)
    requires env == SEEING || env == BLIND
    ensures Holding(CONFIG, env) && EffectiveWindow(CONFIG, env.reply) == 60
    ensures Opening(CONFIG, CALL, env) == [Call(CALL, env), Tick(61)]
  {
    assert "decision"[0] != "review_timeout_seconds"[0];
  }

  lemma SampleCall()
    ensures WellFormed(CALL) && Key(CALL) == Task("thread", "call")
    ensures Approves(YES) && FromPayload(YES).None?
    ensures FromIso(BROKEN.deadline).None? && StillOpen(LATER.deadline, 61)
  {
    NormalHead("approve");
    assert Lower("approve") == "approve";
    assert "soon"[3] == 'n' && "soon"[0] == 's';
    ParseIntText(100);
  }

  // A review asked for at 0 with a window of 60 seconds runs the tool at 61, in each of four runs.

  lemma FirstRun()
    ensures RanLate(CONFIG, [Call(CALL, SEEING), Tick(61), LoseMemory, Resume(CALL, YES, BLIND)], Key(CALL))
  {
    SampleHolds(SEEING);
    SampleHolds(BLIND);
    SampleCall();
    LateByUnreadableAnswer(CONFIG, CALL, SEEING, BLIND, YES);
    assert Lost(CONFIG, CALL, SEEING) + [Resume(CALL, YES, BLIND)] ==
           [Call(CALL, SEEING), Tick(61), LoseMemory, Resume(CALL, YES, BLIND)];
  }

  lemma SecondRun()
    ensures RanLate(CONFIG, [Call(CALL, SEEING), Tick(61), LoseMemory, Call(CALL, BLIND), Resume(CALL, YES, SEEING)],
                    Key(CALL))
  {
    SampleHolds(SEEING);
    SampleHolds(BLIND);
    SampleCall();
    LateByUnreadablePass(CONFIG, CALL, SEEING, BLIND, YES, SEEING);
    assert Lost(CONFIG, CALL, SEEING) + [Call(CALL, BLIND)] + [Resume(CALL, YES, SEEING)] ==
           [Call(CALL, SEEING), Tick(61), LoseMemory, Call(CALL, BLIND), Resume(CALL, YES, SEEING)];
  }

  lemma ThirdRun()
    ensures RanLate(CONFIG, [Call(CALL, SEEING), Tick(61), Resume(CALL, ApprovalWith(LATER), SEEING)], Key(CALL))
  {
    SampleHolds(SEEING);
    SampleCall();
    LateByOwnDeadline(CONFIG, CALL, SEEING, LATER, SEEING);
    assert [Call(CALL, SEEING), Tick(61)] + [Resume(CALL, ApprovalWith(LATER), SEEING)] ==
           [Call(CALL, SEEING), Tick(61), Resume(CALL, ApprovalWith(LATER), SEEING)];
  }

  lemma FourthRun()
    ensures RanLate(CONFIG, [Call(CALL, SEEING), Tick(61), LoseMemory, Resume(CALL, ToPayload(BROKEN), BLIND),
                             Resume(CALL, YES, SEEING)], Key(CALL))
  {
    SampleHolds(SEEING);
    SampleHolds(BLIND);
    SampleCall();
    LateByStray(CONFIG, CALL, SEEING, BLIND, BROKEN, YES, SEEING);
    assert Lost(CONFIG, CALL, SEEING) + [Resume(CALL, ToPayload(BROKEN), BLIND)] + [Resume(CALL, YES, SEEING)] ==
           [Call(CALL, SEEING), Tick(61), LoseMemory, Resume(CALL, ToPayload(BROKEN), BLIND),
            Resume(CALL, YES, SEEING)];
  }
}
