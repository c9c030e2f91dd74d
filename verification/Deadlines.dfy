/** One deadline for the whole life of a hold: exactly when that is kept, what it gives (record
    counts, approval only in time), and every way in which it is lost. */
module Deadlines {
  import opened Text
  import opened Json
  import opened Domain
  import opened Opa
  import opened Review
  import opened Telemetry
  import opened Protocol
  import opened Cells
  import opened Locality
  import opened Histories

  // ---------------------------------------------------------------- passes that rebuild a hold

  /** The window a review reply asks for: its own, or the configured one if it says zero. */
  function EffectiveWindow(cfg: Config, reply: Transport): int {
    var w := if ResultBlock(reply).Some?
             then Integer(Get(ResultBlock(reply).value, "review_timeout_seconds")).GetOr(0) else 0;
    if w == 0 then cfg.fallback else w
  }

  lemma ReviewWindow(cfg: Config, i: Intent, env: Env, now: int)
    requires Decides(env.reply, Verdict.Review)
    ensures var a := Authorized(cfg, env);
            && a.Answered? && a.result.verdict == Verdict.Review
            && BuildHold(i, a.result, cfg.fallback, now).deadline == Iso(now + EffectiveWindow(cfg, env.reply))
  {
    Classified(cfg.failMode, env.reply, Collected(env.gathered));
    Block(cfg.failMode, env.reply, Collected(env.gathered));
    Word(Get(ResultBlock(env.reply).value, "decision"), Verdict.Review);
  }

  /** A pass over a held call that cannot get the hold back: memory has no entry, the state is
      unreadable, and the provider answers with a review the adapter can enforce. */
  predicate PassRebuilds(cfg: Config, c: Cell, env: Env) {
    && c.done.None? && c.entry.None? && c.slot.Some?
    && !env.stateReadable && Decides(env.reply, Verdict.Review) && CanHold(cfg)
  }

  /** The rebuilt hold expires at another moment than the stored one. */
  predicate NewDeadline(cfg: Config, c: Cell, reply: Transport) {
    SlotHold(c.slot).Some? && SlotHold(c.slot).value.deadline != Iso(c.now + EffectiveWindow(cfg, reply))
  }

  /** The response in force is itself a hold, with a deadline that is no time. */
  predicate Unresolvable(c: Cell) {
    && c.response.Some? && FromPayload(c.response.value).Some?
    && FromIso(FromPayload(c.response.value).value.deadline).None?
  }

  /** What a pass that rebuilds a hold can do: just that; give the hold another deadline; or leave
      memory with a hold that was never stored, because resolving it raised. */
  datatype Slip = Rebuilding | Moving | Straying

  predicate PassSlips(cfg: Config, slip: Slip, c: Cell, env: Env) {
    && PassRebuilds(cfg, c, env)
    && (slip == Moving ==> NewDeadline(cfg, c, env.reply))
    && (slip == Straying ==> Unresolvable(c))
  }

  predicate Slips(cfg: Config, slip: Slip, c: Cell, e: Event, t: Task) {
    About(e, t) && PassSlips(cfg, slip, Meeting(c, e), e.env)
  }

  /** No pass of the run over t slips. */
  predicate Never(cfg: Config, slip: Slip, es: seq<Event>, t: Task) {
    forall k {:trigger es[..k]} :: 0 <= k < |es| ==> !Slips(cfg, slip, View(Run(cfg, es[..k]), t), es[k], t)
  }

  predicate NeverIn(cfg: Config, slip: Slip, es: seq<Event>, t: Task) {
    es == [] ||
    (NeverIn(cfg, slip, es[..|es| - 1], t)
     && !Slips(cfg, slip, CellRun(cfg, es[..|es| - 1], t), es[|es| - 1], t))
  }

  lemma NeverSplits(cfg: Config, slip: Slip, es: seq<Event>, e: Event, t: Task)
    ensures Never(cfg, slip, es + [e], t) <==>
            Never(cfg, slip, es, t) && !Slips(cfg, slip, View(Run(cfg, es), t), e, t)
  {
    var all := es + [e];
    assert all[..|es|] == es;
    assert forall k :: 0 <= k < |es| ==> all[..k] == es[..k];
    if Never(cfg, slip, all, t) {
      assert !Slips(cfg, slip, View(Run(cfg, all[..|es|]), t), all[|es|], t);
      forall k | 0 <= k < |es| ensures !Slips(cfg, slip, View(Run(cfg, es[..k]), t), es[k], t) {
        assert !Slips(cfg, slip, View(Run(cfg, all[..k]), t), all[k], t);
      }
    }
  }

  lemma NeverInSplits(cfg: Config, slip: Slip, es: seq<Event>, e: Event, t: Task)
    ensures NeverIn(cfg, slip, es + [e], t) <==>
            NeverIn(cfg, slip, es, t) && !Slips(cfg, slip, CellRun(cfg, es, t), e, t)
  {
    assert (es + [e])[..|es|] == es;
  }

  lemma {:induction false} NeverInside(cfg: Config, slip: Slip, es: seq<Event>, t: Task)
    requires Good(es, t)
    ensures Never(cfg, slip, es, t) <==> NeverIn(cfg, slip, es, t)
  {
    if es != [] {
      var last := |es| - 1;
      var init, e := es[..last], es[last];
      GoodPrefix(es, t, last);
      NeverInside(cfg, slip, init, t);
      NeverSplits(cfg, slip, init, e, t);
      NeverInSplits(cfg, slip, init, e, t);
      assert es == init + [e];
      PrefixLocal(cfg, es, t, last);
    }
  }

  /** A state that stays readable rules every slip out. */
  lemma ReadableNever(cfg: Config, slip: Slip, es: seq<Event>, t: Task)
    requires Readable(es)
    ensures Never(cfg, slip, es, t)
  {
  }

  lemma {:induction false} RebuildsNone(cfg: Config, slip: Slip, es: seq<Event>, t: Task)
    requires NeverIn(cfg, Rebuilding, es, t)
    ensures NeverIn(cfg, slip, es, t)
  {
    if es != [] {
      RebuildsNone(cfg, slip, es[..|es| - 1], t);
    }
  }

  // ---------------------------------------------------------------- memory agrees with the checkpoint

  /** An entry in memory is the hold in the checkpoint. */
  predicate Agreed(c: Cell) {
    c.entry.Some? ==> c.slot == Some(ToPayload(c.entry.value.hold))
  }

  /** Where the hold of a turn comes from, given that it was not slipped. */
  predicate FromPlace(c: Cell, r: ControlResult, h: Hold, source: Source) {
    match source
    case Memory => c.entry == Some(Entry(r, h)) && c.slot == Some(ToPayload(h))
    case Checkpoint => c.entry.None? && c.slot == Some(ToPayload(h))
    case Nowhere => c.entry.None?
  }

  lemma HeldAgrees(c: Cell, i: Intent, r: ControlResult, h: Hold, source: Source, env: Env)
    requires FromPlace(c, r, h, source) && FromIso(h.deadline).Some?
    requires source.Nowhere? ==> !Unresolvable(c)
    ensures Agreed(HeldPass(c, i, r, h, source, env))
  {
    if c.response.Some? {
      ResolveExact(Governing(h, c.response.value), c.response.value, r, c.now);
    }
  }

  /** A turn that reviews: its hold is the stored one, or a fresh one for a call not held yet, or
      the pass rebuilds. */
  predicate Placed(cfg: Config, c: Cell, turn: Turn, env: Env) {
    turn.Reviewing? ==>
      && turn.result.verdict == Verdict.Review && FromIso(turn.hold.deadline).Some?
      && turn.cell == (if turn.source.Memory? then c else c.(replies := c.replies + [env.reply]))
      && FromPlace(turn.cell, turn.result, turn.hold, turn.source) && c.done.None?
      && (turn.source.Nowhere? ==>
            && turn.hold.deadline == Iso(c.now + EffectiveWindow(cfg, env.reply))
            && (c.slot.Some? ==> PassRebuilds(cfg, c, env)))
  }

  lemma MemoryPlaced(cfg: Config, c: Cell, i: Intent, env: Env)
    requires CallInv(cfg, c, Key(i)) && Agreed(c) && c.entry.Some?
    ensures Placed(cfg, c, CellTurn(cfg, c, i, env), env)
  {
  }

  lemma ConsultPlaced(cfg: Config, c: Cell, i: Intent, env: Env)
    requires Places(c, Key(i)) && c.entry.None?
    ensures Placed(cfg, c, CellTurn(cfg, c, i, env), env)
  {
    var turn := CellTurn(cfg, c, i, env);
    if turn.Reviewing? {
      Classified(cfg.failMode, env.reply, Collected(env.gathered));
      ReviewWindow(cfg, i, env, c.now);
      ParseIntText(c.now + EffectiveWindow(cfg, env.reply));
    }
  }

  lemma TurnPlaced(cfg: Config, c: Cell, i: Intent, env: Env)
    requires CallInv(cfg, c, Key(i)) && Agreed(c)
    ensures Placed(cfg, c, CellTurn(cfg, c, i, env), env)
  {
    if c.entry.Some? {
      MemoryPlaced(cfg, c, i, env);
    } else {
      ConsultPlaced(cfg, c, i, env);
    }
  }

  lemma TurnResolves(cfg: Config, c: Cell, turn: Turn, env: Env)
    requires Placed(cfg, c, turn, env) && (c.response.Some? ==> c.slot.Some?) && !PassSlips(cfg, Straying, c, env)
    ensures turn.Reviewing? && turn.source.Nowhere? ==> !Unresolvable(turn.cell)
  {
  }

  lemma PassAgrees(cfg: Config, c: Cell, i: Intent, env: Env)
    requires CallInv(cfg, c, Key(i)) && Agreed(c) && !PassSlips(cfg, Straying, c, env)
    ensures Agreed(CellPass(cfg, c, i, env))
  {
    var turn := CellTurn(cfg, c, i, env);
    TurnPlaced(cfg, c, i, env);
    TurnResolves(cfg, c, turn, env);
    match turn
    case Idle(_) =>
    case Straight(c1, r) => assert Agreed(DirectPass(c1, i, r, env));
    case Reviewing(c1, r, h, source) => HeldAgrees(c1, i, r, h, source, env);
  }

  lemma ApplyAgrees(cfg: Config, c: Cell, e: Event, t: Task)
    requires CallInv(cfg, c, t) && Agreed(c) && !Slips(cfg, Straying, c, e, t)
    ensures Agreed(CellApply(cfg, c, e, t))
  {
    if About(e, t) && (e.Resume? ==> c.slot.Some?) {
      PassAgrees(cfg, Meeting(c, e), e.intent, e.env);
      EventTakes(cfg, c, e, t);
    }
  }

  lemma {:induction false} RunAgrees(cfg: Config, es: seq<Event>, t: Task)
    requires NeverIn(cfg, Straying, es, t)
    ensures Agreed(CellRun(cfg, es, t))
  {
    if es != [] {
      RunAgrees(cfg, es[..|es| - 1], t);
      RunKeeps(cfg, es[..|es| - 1], t);
      ApplyAgrees(cfg, CellRun(cfg, es[..|es| - 1], t), es[|es| - 1], t);
    }
  }

  lemma RunAgreed(cfg: Config, es: seq<Event>, t: Task)
    requires Good(es, t) && Never(cfg, Straying, es, t)
    ensures Agreed(View(Run(cfg, es), t)) && Places(View(Run(cfg, es), t), t)
    ensures Sound(Run(cfg, es)) && Apart(Run(cfg, es).board, t)
  {
    RunLocal(cfg, es, t);
    RunKeeps(cfg, es, t);
    NeverInside(cfg, Straying, es, t);
    RunAgrees(cfg, es, t);
  }

  /** The pending map, in every run that never strays: an entry is filed under its own hold id,
      holds a review, and is exactly the hold in the checkpoint; so a call that is over, or was
      never held, has no entry. */
  lemma PendingAgreesWithCheckpoint(cfg: Config, es: seq<Event>, t: Task)
    requires Good(es, t) && Never(cfg, Straying, es, t)
    ensures var s := Run(cfg, es);
            IdOf(t) in s.pending ==>
              var e := s.pending[IdOf(t)];
              && e.hold.holdId == IdOf(t) && e.result.verdict == Verdict.Review
              && Stored(s.board, t) == Some(ToPayload(e.hold))
              && t !in s.done
  {
    RunAgreed(cfg, es, t);
    assert Look(Run(cfg, es).done, t) == View(Run(cfg, es), t).done;
    assert Look(Run(cfg, es).pending, IdOf(t)) == View(Run(cfg, es), t).entry;
  }

  lemma {:induction false} RunTracks(cfg: Config, es: seq<Event>, t: Task)
    requires NoLoss(es)
    ensures CellRun(cfg, es, t).slot.Some? ==> CellRun(cfg, es, t).entry.Some?
  {
    if es != [] {
      var c, e := CellRun(cfg, es[..|es| - 1], t), es[|es| - 1];
      RunTracks(cfg, es[..|es| - 1], t);
      if e.Call? {
        PassTracks(cfg, c, e.intent, e.env);
      } else if e.Resume? {
        PassTracks(cfg, c.(response := Some(e.response)), e.intent, e.env);
      }
    }
  }

  lemma PassTracks(cfg: Config, c: Cell, i: Intent, env: Env)
    requires c.slot.Some? ==> c.entry.Some?
    ensures CellPass(cfg, c, i, env).slot.Some? ==> CellPass(cfg, c, i, env).entry.Some?
  {
  }

  /** While memory is not lost, entries come and go exactly with the interrupts: a call has an
      entry from its first suspended pass until its hold resolves. */
  lemma TrackedUntilResolved(cfg: Config, es: seq<Event>, t: Task)
    requires Good(es, t) && NoLoss(es)
    ensures IdOf(t) in Run(cfg, es).pending <==> Stored(Run(cfg, es).board, t).Some?
  {
    RunLocal(cfg, es, t);
    RunKeeps(cfg, es, t);
    RunTracks(cfg, es, t);
    assert Look(Run(cfg, es).pending, IdOf(t)) == CellRun(cfg, es, t).entry;
  }

  // ---------------------------------------------------------------- the log only grows

  lemma HeldGrows(c: Cell, i: Intent, r: ControlResult, h: Hold, source: Source, env: Env)
    ensures c.log <= HeldPass(c, i, r, h, source, env).log
  {
  }

  lemma PassGrowsLog(cfg: Config, c: Cell, i: Intent, env: Env)
    ensures c.log <= CellPass(cfg, c, i, env).log
  {
    match CellTurn(cfg, c, i, env)
    case Reviewing(c1, r, h, source) => HeldGrows(c1, i, r, h, source, env);
    case _ =>
  }

  lemma ApplyGrows(cfg: Config, c: Cell, e: Event, t: Task)
    ensures c.log <= CellApply(cfg, c, e, t).log
  {
    match e
    case Call(i, env) => PassGrowsLog(cfg, c, i, env);
    case Resume(i, response, env) => PassGrowsLog(cfg, c.(response := Some(response)), i, env);
    case _ =>
  }

  lemma CellRunStep(cfg: Config, es: seq<Event>, e: Event, t: Task)
    ensures CellRun(cfg, es + [e], t) == CellApply(cfg, CellRun(cfg, es, t), e, t)
  {
    assert (es + [e])[..|es|] == es;
  }

  lemma {:induction false} RunGrows(cfg: Config, es: seq<Event>, more: seq<Event>, t: Task)
    ensures CellRun(cfg, es, t).log <= CellRun(cfg, es + more, t).log
  {
    if more == [] {
      assert es + more == es;
    } else {
      var init, e := more[..|more| - 1], more[|more| - 1];
      RunGrows(cfg, es, init, t);
      assert es + more == (es + init) + [e];
      CellRunStep(cfg, es + init, e, t);
      ApplyGrows(cfg, CellRun(cfg, es + init, t), e, t);
    }
  }

  // ---------------------------------------------------------------- one deadline per hold

  predicate AllDeadlines(log: seq<Record>, d: string) {
    forall k :: 0 <= k < |log| && log[k].deadline.Some? ==> log[k].deadline.value == d
  }

  /** A call's records name at most one deadline. */
  predicate OneDeadline(log: seq<Record>) {
    forall j, k :: 0 <= j < |log| && 0 <= k < |log| && log[j].deadline.Some? && log[k].deadline.Some? ==>
      log[j].deadline == log[k].deadline
  }

  /** All that is known of a call carries the deadline d. */
  predicate Carries(c: Cell, d: string) {
    && AllDeadlines(c.log, d)
    && (c.slot.Some? ==> SlotHold(c.slot).Some? && SlotHold(c.slot).value.deadline == d)
    && (c.entry.Some? ==> c.entry.value.hold.deadline == d)
    && (c.done.Some? && c.done.value.deadline.Some? ==> c.done.value.deadline.value == d)
  }

  /** A call opened by a pending record carries that record's deadline throughout. */
  predicate Fixed(c: Cell) {
    c.log != [] && IsPending(c.log[0]) ==> c.log[0].deadline.Some? && Carries(c, c.log[0].deadline.value)
  }

  lemma ConcludingCarries(c: Cell, i: Intent, r: ControlResult, h: Hold, response: Json, replay: bool, env: Env)
    requires Carries(c, h.deadline) && c.done.None?
    ensures Carries(Concluding(c, i, r, h, response, replay, env), h.deadline)
  {
  }

  lemma HeldCarries(c: Cell, i: Intent, r: ControlResult, h: Hold, source: Source, env: Env)
    requires Carries(c, h.deadline) && c.done.None?
    ensures Carries(HeldPass(c, i, r, h, source, env), h.deadline)
  {
    if c.response.None? {
      RoundTrip(h);
    } else {
      var c1 := if source.Memory? then c
                else Logged(c.(entry := Some(Entry(r, h))), PendingRecord(i, r, h, true));
      assert Carries(c1, h.deadline);
      ConcludingCarries(c1, i, r, h, c.response.value, !source.Memory?, env);
    }
  }

  lemma DirectCarries(c: Cell, i: Intent, r: ControlResult, env: Env, d: string)
    requires Carries(c, d) && c.done.None?
    ensures Carries(DirectPass(c, i, r, env), d)
  {
  }

  lemma OpeningFixed(c: Cell, i: Intent, r: ControlResult, h: Hold, env: Env)
    requires c.log == [] && c.entry.None? && c.slot.None? && c.response.None? && c.done.None?
    ensures Fixed(HeldPass(c, i, r, h, Nowhere, env))
  {
    RoundTrip(h);
  }

  /** The hold a turn reviews has the deadline the call carries. */
  lemma TurnCarries(cfg: Config, c: Cell, i: Intent, env: Env)
    requires Places(c, Key(i)) && LogInv(c) && c.log != [] && IsPending(c.log[0]) && Fixed(c)
    requires !PassSlips(cfg, Moving, c, env)
    ensures var turn := CellTurn(cfg, c, i, env);
            turn.Reviewing? ==>
              && turn.hold.deadline == c.log[0].deadline.value
              && Carries(turn.cell, turn.hold.deadline) && turn.cell.done.None?
  {
    if c.entry.None? {
      ConsultPlaced(cfg, c, i, env);
      var turn := CellTurn(cfg, c, i, env);
      if turn.Reviewing? {
        RoundTrip(turn.hold);
      }
    }
  }

  lemma OpeningPass(cfg: Config, c: Cell, i: Intent, env: Env)
    requires Places(c, Key(i)) && c.log == [] && c.slot.None? && c.response.None?
    ensures Fixed(CellPass(cfg, c, i, env))
  {
    match CellTurn(cfg, c, i, env)
    case Reviewing(c1, r, h, source) => OpeningFixed(c1, i, r, h, env);
    case _ =>
  }

  lemma PendingPass(cfg: Config, c: Cell, i: Intent, env: Env)
    requires Places(c, Key(i)) && LogInv(c) && c.log != [] && IsPending(c.log[0]) && Fixed(c)
    requires !PassSlips(cfg, Moving, c, env)
    ensures Fixed(CellPass(cfg, c, i, env))
  {
    PassGrowsLog(cfg, c, i, env);
    TurnCarries(cfg, c, i, env);
    match CellTurn(cfg, c, i, env)
    case Idle(_) =>
    case Straight(c1, r) => DirectCarries(c1, i, r, env, c.log[0].deadline.value);
    case Reviewing(c1, r, h, source) => HeldCarries(c1, i, r, h, source, env);
  }

  lemma PassFixed(cfg: Config, c: Cell, i: Intent, env: Env)
    requires CallInv(cfg, c, Key(i)) && Fixed(c) && !PassSlips(cfg, Moving, c, env)
    requires c.slot.None? ==> c.response.None?
    ensures Fixed(CellPass(cfg, c, i, env))
  {
    PassGrowsLog(cfg, c, i, env);
    if c.log == [] {
      if c.done.None? {
        OpeningPass(cfg, c, i, env);
      }
    } else if IsPending(c.log[0]) {
      PendingPass(cfg, c, i, env);
    }
  }

  lemma ApplyFixed(cfg: Config, c: Cell, e: Event, t: Task)
    requires CallInv(cfg, c, t) && Fixed(c) && !Slips(cfg, Moving, c, e, t)
    ensures Fixed(CellApply(cfg, c, e, t))
  {
    if About(e, t) && (e.Resume? ==> c.slot.Some?) {
      PassFixed(cfg, Meeting(c, e), e.intent, e.env);
      EventTakes(cfg, c, e, t);
    }
  }

  lemma {:induction false} RunFixed(cfg: Config, es: seq<Event>, t: Task)
    requires NeverIn(cfg, Moving, es, t)
    ensures Fixed(CellRun(cfg, es, t))
  {
    if es != [] {
      RunFixed(cfg, es[..|es| - 1], t);
      RunKeeps(cfg, es[..|es| - 1], t);
      ApplyFixed(cfg, CellRun(cfg, es[..|es| - 1], t), es[|es| - 1], t);
    }
  }

  /** A pass that moves a deadline puts a second one on record, answered or not. */
  lemma MoveShows(cfg: Config, c: Cell, i: Intent, env: Env)
    requires CallInv(cfg, c, Key(i)) && Fixed(c) && PassSlips(cfg, Moving, c, env)
    ensures !OneDeadline(CellPass(cfg, c, i, env).log)
  {
    ReviewWindow(cfg, i, env, c.now);
    var turn := CellTurn(cfg, c, i, env);
    assert turn.Reviewing? && turn.source.Nowhere? && turn.hold.deadline != c.log[0].deadline.value;
    RebuildRecords(turn.cell, i, turn.result, turn.hold, env);
  }

  lemma RebuildRecords(c: Cell, i: Intent, r: ControlResult, h: Hold, env: Env)
    requires c.log != [] && c.log[0].deadline.Some? && c.log[0].deadline.value != h.deadline
    ensures !OneDeadline(HeldPass(c, i, r, h, Nowhere, env).log)
  {
    var log := HeldPass(c, i, r, h, Nowhere, env).log;
    assert log[0] == c.log[0] && log[|c.log|].deadline == Some(h.deadline);
  }

  lemma ApplyMoves(cfg: Config, c: Cell, e: Event, t: Task)
    requires CallInv(cfg, c, t) && Fixed(c) && Slips(cfg, Moving, c, e, t)
    ensures !OneDeadline(CellApply(cfg, c, e, t).log)
  {
    match e
    case Call(i, env) => MoveShows(cfg, c, i, env);
    case Resume(i, response, env) => MoveShows(cfg, c.(response := Some(response)), i, env);
    case _ =>
  }

  lemma {:induction false} OneDeadlineUnmoved(cfg: Config, es: seq<Event>, t: Task)
    requires OneDeadline(CellRun(cfg, es, t).log)
    ensures NeverIn(cfg, Moving, es, t)
  {
    if es != [] {
      var init, e := es[..|es| - 1], es[|es| - 1];
      ApplyGrows(cfg, CellRun(cfg, init, t), e, t);
      OneDeadlineUnmoved(cfg, init, t);
      RunKeeps(cfg, init, t);
      RunFixed(cfg, init, t);
      if Slips(cfg, Moving, CellRun(cfg, init, t), e, t) {
        ApplyMoves(cfg, CellRun(cfg, init, t), e, t);
      }
    }
  }

  lemma FixedOneDeadline(cfg: Config, c: Cell, t: Task)
    requires CallInv(cfg, c, t) && Fixed(c)
    ensures OneDeadline(c.log)
  {
  }

  /** Exactly when a hold keeps its deadline: the records of a call name one deadline over a whole
      run, losses of memory and repeated passes included, if and only if no pass over the held
      call found memory empty and the state unreadable, was answered with a review again, and
      thereby built the hold anew with another deadline. */
  lemma OneDeadlineExactly(cfg: Config, es: seq<Event>, t: Task)
    requires Good(es, t)
    ensures OneDeadline(Of(Run(cfg, es).log, t)) <==> Never(cfg, Moving, es, t)
  {
    RunLocal(cfg, es, t);
    NeverInside(cfg, Moving, es, t);
    if NeverIn(cfg, Moving, es, t) {
      RunKeeps(cfg, es, t);
      RunFixed(cfg, es, t);
      FixedOneDeadline(cfg, CellRun(cfg, es, t), t);
    } else if OneDeadline(CellRun(cfg, es, t).log) {
      OneDeadlineUnmoved(cfg, es, t);
    }
  }

  lemma HeldRunOpened(cfg: Config, es: seq<Event>, t: Task)
    requires CellRun(cfg, es, t).slot.Some?
    ensures CellRun(cfg, es, t).log != [] && IsPending(CellRun(cfg, es, t).log[0])
  {
    RunKeeps(cfg, es, t);
  }

  lemma {:induction false} NeverInPrefix(cfg: Config, slip: Slip, es: seq<Event>, more: seq<Event>, t: Task)
    requires NeverIn(cfg, slip, es + more, t)
    ensures NeverIn(cfg, slip, es, t)
  {
    if more == [] {
      assert es + more == es;
    } else {
      assert (es + more)[..|es + more| - 1] == es + more[..|more| - 1];
      NeverInPrefix(cfg, slip, es, more[..|more| - 1], t);
    }
  }

  lemma StableCell(cfg: Config, es: seq<Event>, more: seq<Event>, t: Task)
    requires NeverIn(cfg, Moving, es + more, t) && CellRun(cfg, es, t).slot.Some?
    ensures SlotHold(CellRun(cfg, es, t).slot).Some?
    ensures Carries(CellRun(cfg, es + more, t), SlotHold(CellRun(cfg, es, t).slot).value.deadline)
  {
    NeverInPrefix(cfg, Moving, es, more, t);
    RunKeeps(cfg, es, t);
    HeldRunOpened(cfg, es, t);
    RunFixed(cfg, es, t);
    RunFixed(cfg, es + more, t);
    RunGrows(cfg, es, more, t);
    assert CellRun(cfg, es + more, t).log[0] == CellRun(cfg, es, t).log[0];
  }

  /** Deadline stability: once a hold is stored, its stored payload, its entry in memory, its
      resolution and every record about it carry the same deadline in all later states, though
      each unanswered pass stores the payload again and memory may be lost at any time. */
  lemma DeadlineStable(cfg: Config, es: seq<Event>, more: seq<Event>, t: Task)
    requires Good(es + more, t) && Never(cfg, Moving, es + more, t)
    requires Stored(Run(cfg, es).board, t).Some?
    ensures var h := FromPayload(Stored(Run(cfg, es).board, t).value);
            var s := Run(cfg, es + more);
            && h.Some?
            && (Stored(s.board, t).Some? ==>
                  FromPayload(Stored(s.board, t).value).Some?
                  && FromPayload(Stored(s.board, t).value).value.deadline == h.value.deadline)
            && (IdOf(t) in s.pending ==> s.pending[IdOf(t)].hold.deadline == h.value.deadline)
            && (t in s.done && s.done[t].deadline.Some? ==> s.done[t].deadline.value == h.value.deadline)
            && AllDeadlines(Of(s.log, t), h.value.deadline)
  {
    assert (es + more)[..|es|] == es;
    PrefixLocal(cfg, es + more, t, |es|);
    RunLocal(cfg, es + more, t);
    NeverInside(cfg, Moving, es + more, t);
    StableCell(cfg, es, more, t);
    assert Look(Run(cfg, es + more).done, t) == CellRun(cfg, es + more, t).done;
    assert Look(Run(cfg, es + more).pending, IdOf(t)) == CellRun(cfg, es + more, t).entry;
  }

  // ---------------------------------------------------------------- the first pass

  /** What the record that opens a hold says about the reply and the moment of the pass that
      wrote it. */
  predicate OpenedBy(cfg: Config, first: Record, reply: Transport, now: int) {
    && Decides(reply, Verdict.Review) && first.deadline.Some?
    && FromIso(first.deadline.value) == Some(now + EffectiveWindow(cfg, reply))
  }

  lemma FirstPassOpens(cfg: Config, c: Cell, i: Intent, env: Env)
    requires CallInv(cfg, c, Key(i)) && c.log == [] && c.response.None?
    requires var log := CellPass(cfg, c, i, env).log; log != [] && IsPending(log[0])
    ensures OpenedBy(cfg, CellPass(cfg, c, i, env).log[0], env.reply, c.now)
    ensures c.done.None? && c.entry.None?
  {
    ConsultPlaced(cfg, c, i, env);
    Classified(cfg.failMode, env.reply, Collected(env.gathered));
    ParseIntText(c.now + EffectiveWindow(cfg, env.reply));
  }

  lemma FirstEventOpens(cfg: Config, c: Cell, e: Event, t: Task)
    requires CallInv(cfg, c, t) && c.log == []
    requires var log := CellApply(cfg, c, e, t).log; log != [] && IsPending(log[0])
    ensures Consults(c, e, t) && OpenedBy(cfg, CellApply(cfg, c, e, t).log[0], e.env.reply, c.now)
  {
    if e.Call? {
      FirstPassOpens(cfg, c, e.intent, e.env);
    }
  }

  lemma FirstRunOpens(cfg: Config, es: seq<Event>, e: Event, t: Task)
    requires CellRun(cfg, es, t).log == []
    requires var log := CellApply(cfg, CellRun(cfg, es, t), e, t).log; log != [] && IsPending(log[0])
    ensures var c := CellRun(cfg, es, t);
            Consults(c, e, t) && OpenedBy(cfg, CellApply(cfg, c, e, t).log[0], e.env.reply, c.now)
  {
    RunKeeps(cfg, es, t);
    FirstEventOpens(cfg, CellRun(cfg, es, t), e, t);
  }

  lemma {:induction false} FirstOpens(cfg: Config, es: seq<Event>, t: Task) returns (j: nat)
    requires var log := CellRun(cfg, es, t).log; log != [] && IsPending(log[0])
    ensures j < |es| && CellRun(cfg, es[..j], t).log == [] && Consults(CellRun(cfg, es[..j], t), es[j], t)
    ensures OpenedBy(cfg, CellRun(cfg, es, t).log[0], es[j].env.reply, CellRun(cfg, es[..j], t).now)
    ensures var log := CellApply(cfg, CellRun(cfg, es[..j], t), es[j], t).log;
            log != [] && log[0] == CellRun(cfg, es, t).log[0]
  {
    var init, e := es[..|es| - 1], es[|es| - 1];
    var c := CellRun(cfg, init, t);
    ApplyGrows(cfg, c, e, t);
    if c.log != [] {
      assert CellApply(cfg, c, e, t).log[0] == c.log[0];
      j := FirstOpens(cfg, init, t);
      assert es[..j] == init[..j];
    } else {
      j := |es| - 1;
      FirstRunOpens(cfg, init, e, t);
    }
  }

  /** The deadline of a hold is fixed on the first pass that was answered with a review: that
      pass's moment plus policy's window, or the configured one if policy says zero. */
  lemma FixedOnFirstPass(cfg: Config, es: seq<Event>, t: Task) returns (j: nat)
    requires Good(es, t)
    requires var log := Of(Run(cfg, es).log, t); log != [] && IsPending(log[0])
    ensures Asks(cfg, es, t, j) && Of(Run(cfg, es[..j]).log, t) == []
    ensures OpenedBy(cfg, Of(Run(cfg, es).log, t)[0], es[j].env.reply, Run(cfg, es[..j]).now)
  {
    RunLocal(cfg, es, t);
    j := FirstOpens(cfg, es, t);
    PrefixLocal(cfg, es, t, j);
  }

  // ---------------------------------------------------------------- record counts

  /** One fresh pending record, then only replays of it. */
  predicate HeldLog(log: seq<Record>) {
    && log != [] && !log[0].replay
    && (forall k :: 0 <= k < |log| ==> IsOpen(log[k]))
    && (forall k :: 1 <= k < |log| ==> log[k].replay)
  }

  predicate OpenLog(log: seq<Record>) {
    log != [] ==> HeldLog(log)
  }

  /** Before it is over a call has no records or those of one hold; after, one more; and a review
      ends only a call that was held. */
  predicate Shape(c: Cell) {
    match c.done
    case None => OpenLog(c.log)
    case Some(d) => c.log != [] && OpenLog(c.log[..|c.log| - 1]) && (d.deadline.Some? ==> |c.log| > 1)
  }

  lemma AnsweredShape(c: Cell, i: Intent, r: ControlResult, h: Hold, source: Source, env: Env)
    requires HeldLog(c.log) && c.done.None? && c.response.Some? && r.verdict == Verdict.Review
    ensures Shape(HeldPass(c, i, r, h, source, env))
  {
    var log := if source.Memory? then c.log else c.log + [PendingRecord(i, r, h, true)];
    assert HeldLog(log);
    var c' := HeldPass(c, i, r, h, source, env);
    if c'.done.Some? {
      assert c'.log[..|c'.log| - 1] == log;
    }
  }

  lemma HeldShape(c: Cell, i: Intent, r: ControlResult, h: Hold, source: Source, env: Env)
    requires OpenLog(c.log) && c.done.None? && r.verdict == Verdict.Review
    requires if source.Nowhere? then c.log == [] && c.response.None? else c.log != []
    ensures Shape(HeldPass(c, i, r, h, source, env))
  {
    if c.response.Some? {
      AnsweredShape(c, i, r, h, source, env);
    }
  }

  lemma DirectShape(c: Cell, i: Intent, r: ControlResult, env: Env)
    requires OpenLog(c.log) && c.done.None?
    ensures Shape(DirectPass(c, i, r, env))
  {
    var c' := DirectPass(c, i, r, env);
    assert c'.log[..|c'.log| - 1] == c.log;
  }

  lemma TurnLogged(cfg: Config, c: Cell, i: Intent, env: Env)
    requires CallInv(cfg, c, Key(i)) && !PassRebuilds(cfg, c, env)
    ensures var turn := CellTurn(cfg, c, i, env);
            turn.Reviewing? ==>
              && turn.cell.log == c.log && turn.cell.response == c.response && turn.cell.done.None?
              && turn.result.verdict == Verdict.Review
              && (if turn.source.Nowhere? then c.log == [] && c.response.None? else c.log != [])
  {
    if c.entry.None? {
      ConsultPlaced(cfg, c, i, env);
    }
  }

  lemma PassShape(cfg: Config, c: Cell, i: Intent, env: Env)
    requires CallInv(cfg, c, Key(i)) && Shape(c) && !PassRebuilds(cfg, c, env)
    ensures Shape(CellPass(cfg, c, i, env))
  {
    TurnLogged(cfg, c, i, env);
    match CellTurn(cfg, c, i, env)
    case Idle(_) =>
    case Straight(c1, r) => DirectShape(c1, i, r, env);
    case Reviewing(c1, r, h, source) => HeldShape(c1, i, r, h, source, env);
  }

  lemma ApplyShape(cfg: Config, c: Cell, e: Event, t: Task)
    requires CallInv(cfg, c, t) && Shape(c) && !Slips(cfg, Rebuilding, c, e, t)
    ensures Shape(CellApply(cfg, c, e, t))
  {
    if About(e, t) && (e.Resume? ==> c.slot.Some?) {
      PassShape(cfg, Meeting(c, e), e.intent, e.env);
      EventTakes(cfg, c, e, t);
    }
  }

  lemma {:induction false} RunShape(cfg: Config, es: seq<Event>, t: Task)
    requires NeverIn(cfg, Rebuilding, es, t)
    ensures Shape(CellRun(cfg, es, t))
  {
    if es != [] {
      RunShape(cfg, es[..|es| - 1], t);
      RunKeeps(cfg, es[..|es| - 1], t);
      ApplyShape(cfg, CellRun(cfg, es[..|es| - 1], t), es[|es| - 1], t);
    }
  }

  function Fresh(log: seq<Record>): nat {
    if log == [] then 0
    else
      var last := log[|log| - 1];
      Fresh(log[..|log| - 1]) + if IsPending(last) && !last.replay then 1 else 0
  }

  lemma {:induction false} HeldLogFresh(log: seq<Record>)
    requires HeldLog(log)
    ensures Fresh(log) == 1 && Closings(log) == 0
  {
    if |log| > 1 {
      HeldLogFresh(log[..|log| - 1]);
    } else {
      assert log[..0] == [];
    }
  }

  /** The policy, whenever it is asked about the call, answers with a review always or never. */
  predicate Steady(cfg: Config, es: seq<Event>, t: Task) {
    forall j, k {:trigger Asks(cfg, es, t, j), Asks(cfg, es, t, k)} ::
      0 <= j < |es| && 0 <= k < |es| && Asks(cfg, es, t, j) && Asks(cfg, es, t, k) ==>
      Decides(es[j].env.reply, Verdict.Review) == Decides(es[k].env.reply, Verdict.Review)
  }

  lemma CellCounts(cfg: Config, c: Cell, t: Task)
    requires CallInv(cfg, c, t) && Shape(c)
    ensures c.done.None? ==> Closings(c.log) == 0 && Fresh(c.log) == if c.slot.Some? then 1 else 0
    ensures c.done.Some? ==>
              && Closings(c.log) == 1
              && (c.done.value.deadline.Some? ==> Fresh(c.log) == 1)
              && (if IsPending(c.log[0]) then Fresh(c.log) == 1 else |c.log| == 1 && Fresh(c.log) == 0)
  {
    var body := if c.done.Some? then c.log[..|c.log| - 1] else c.log;
    if body != [] {
      HeldLogFresh(body);
    }
  }

  lemma EndingDeadline(mode: FailMode, d: Done, replies: seq<Transport>, execs: seq<Exec>)
    requires Facts(mode, d, replies, execs)
    ensures replies != []
    ensures if ByReview(d.ending) then d.deadline.Some? else !Decides(replies[|replies| - 1], Verdict.Review)
  {
    if replies != [] {
      OneVerdict(mode, replies[|replies| - 1]);
    }
  }

  lemma ReplyAsked(cfg: Config, es: seq<Event>, t: Task, k: nat) returns (n: nat)
    requires Good(es, t) && k < |CellRun(cfg, es, t).replies|
    ensures Asks(cfg, es, t, n) && es[n].env.reply == CellRun(cfg, es, t).replies[k]
  {
    n := RepliesFromPasses(cfg, es, t, k);
    PrefixLocal(cfg, es, t, n);
  }

  lemma SteadyReplies(cfg: Config, es: seq<Event>, t: Task, j: nat, k: nat)
    requires Good(es, t) && Steady(cfg, es, t)
    requires j < |CellRun(cfg, es, t).replies| && k < |CellRun(cfg, es, t).replies|
    ensures var replies := CellRun(cfg, es, t).replies;
            Decides(replies[j], Verdict.Review) == Decides(replies[k], Verdict.Review)
  {
    var m := ReplyAsked(cfg, es, t, j);
    var n := ReplyAsked(cfg, es, t, k);
  }

  lemma SteadyLast(cfg: Config, es: seq<Event>, t: Task)
    requires Good(es, t) && Steady(cfg, es, t) && ReviewDecided(CellRun(cfg, es, t).replies)
    ensures ReviewLast(CellRun(cfg, es, t).replies)
  {
    var replies := CellRun(cfg, es, t).replies;
    var k := SomeReview(replies);
    SteadyReplies(cfg, es, t, |replies| - 1, k);
  }

  /** A call whose last reply was a review if any was, and that ended without one, never was held. */
  lemma NeverHeld(cfg: Config, c: Cell, t: Task)
    requires CallInv(cfg, c, t) && (ReviewDecided(c.replies) ==> ReviewLast(c.replies))
    ensures c.done.Some? && !ByReview(c.done.value.ending) ==> c.log != [] && !IsPending(c.log[0])
  {
    if c.done.Some? {
      EndingDeadline(cfg.failMode, c.done.value, c.replies, c.execs);
    }
  }

  /** The records a call of this status has. */
  predicate CountsFit(st: Status, log: seq<Record>, steady: bool) {
    match st
    case Absent => log == []
    case Held => Fresh(log) == 1 && Closings(log) == 0
    case Over(e) =>
      && Closings(log) == 1 && Fresh(log) <= 1
      && (ByReview(e) ==> Fresh(log) == 1)
      && (!ByReview(e) && steady ==> |log| == 1 && Fresh(log) == 0)
  }

  /** Record counts over a whole run in which no hold is rebuilt. A call nobody decided has no
      records; a held call has one fresh pending record and no closing one; a call closed by its
      review has one of each; and if policy answers a call with a review always or never, a call
      closed without a review has its closing record and nothing else. */
  lemma RecordCounts(cfg: Config, es: seq<Event>, t: Task)
    requires Good(es, t) && Never(cfg, Rebuilding, es, t)
    ensures var s := Run(cfg, es); CountsFit(TrueStatus(s, t), Of(s.log, t), Steady(cfg, es, t))
  {
    RunLocal(cfg, es, t);
    RunKeeps(cfg, es, t);
    NeverInside(cfg, Rebuilding, es, t);
    RunShape(cfg, es, t);
    var c := CellRun(cfg, es, t);
    CellCounts(cfg, c, t);
    if Steady(cfg, es, t) {
      if ReviewDecided(c.replies) {
        SteadyLast(cfg, es, t);
      }
      NeverHeld(cfg, c, t);
    }
    if c.done.Some? {
      EndingDeadline(cfg.failMode, c.done.value, c.replies, c.execs);
    }
    assert Look(Run(cfg, es).done, t) == c.done;
  }

  lemma SilentPass(cfg: Config, c: Cell, i: Intent, env: Env)
    requires Places(c, Key(i)) && Agreed(c)
    requires c.slot.Some? && c.response.None?
    requires c.entry.Some? || (env.stateReadable && Decides(env.reply, Verdict.Review))
    ensures var c' := CellPass(cfg, c, i, env); c'.log == c.log && c'.slot == c.slot && c'.done.None?
  {
    Classified(cfg.failMode, env.reply, Collected(env.gathered));
  }

  /** A pass that finds the call still held and unanswered adds no record and leaves the stored
      hold as it was, when memory has it, or the state is readable and policy says review again. */
  lemma UnansweredPassIsSilent(cfg: Config, es: seq<Event>, i: Intent, env: Env)
    requires Good(es, Key(i)) && WellFormed(i) && Never(cfg, Straying, es, Key(i))
    requires var s := Run(cfg, es);
             && Stored(s.board, Key(i)).Some? && Key(i) !in s.responses
             && (HoldId(i) in s.pending || (env.stateReadable && Decides(env.reply, Verdict.Review)))
    ensures var s := Run(cfg, es); var s' := Apply(cfg, s, Call(i, env));
            && Of(s'.log, Key(i)) == Of(s.log, Key(i))
            && Stored(s'.board, Key(i)) == Stored(s.board, Key(i))
            && Key(i) !in s'.done
  {
    var t := Key(i);
    RunAgreed(cfg, es, t);
    EventLocal(cfg, Run(cfg, es), Call(i, env), t);
    SilentPass(cfg, View(Run(cfg, es), t), i, env);
    assert Look(Apply(cfg, Run(cfg, es), Call(i, env)).done, t).None?;
  }

  // ---------------------------------------------------------------- approval safety

  /** The provider, whenever it is asked about the call, does not allow it outright. */
  predicate NeverAllowed(cfg: Config, es: seq<Event>, t: Task) {
    forall k {:trigger Asks(cfg, es, t, k)} ::
      0 <= k < |es| && Asks(cfg, es, t, k) ==> !Decides(es[k].env.reply, Allow)
  }

  lemma ClosingRecord(cfg: Config, c: Cell, t: Task)
    requires CallInv(cfg, c, t) && c.done.Some? && c.done.value.ending == RanApproved
    ensures c.log != [] && c.log[|c.log| - 1].state == Some(Approved)
    ensures c.log[|c.log| - 1].deadline == c.done.value.deadline
  {
  }

  lemma RunClosing(cfg: Config, es: seq<Event>, t: Task)
    requires Good(es, t) && t in Run(cfg, es).done && Run(cfg, es).done[t].ending == RanApproved
    ensures var s := Run(cfg, es); var log := Of(s.log, t);
            log != [] && log[|log| - 1].state == Some(Approved) && log[|log| - 1].deadline == s.done[t].deadline
  {
    RunLocal(cfg, es, t);
    RunKeeps(cfg, es, t);
    assert Look(Run(cfg, es).done, t) == CellRun(cfg, es, t).done;
    ClosingRecord(cfg, CellRun(cfg, es, t), t);
  }

  /** The ending of an execution after review by a response that is no hold itself. */
  lemma ReviewedEnding(mode: FailMode, d: Done, replies: seq<Transport>, x: Exec)
    requires Facts(mode, d, replies, [x]) && x.via.Reviewed? && FromPayload(x.via.response).None?
    ensures d.ending == RanApproved && d.deadline == Some(x.via.deadline)
    ensures FromIso(x.via.deadline).Some? && x.at <= FromIso(x.via.deadline).value
  {
  }

  /** Whatever went wrong before, an execution after a response that is no hold itself happened no
      later than the deadline its own record shows. */
  lemma RecordedDeadlineKept(cfg: Config, es: seq<Event>, k: nat)
    requires k < |Run(cfg, es).execs| && Good(es, Run(cfg, es).execs[k].task)
    requires var x := Run(cfg, es).execs[k].item; x.via.Reviewed? && FromPayload(x.via.response).None?
    ensures var s := Run(cfg, es); var x, log := s.execs[k].item, Of(s.log, s.execs[k].task);
            && log != [] && log[|log| - 1].state == Some(Approved)
            && log[|log| - 1].deadline == Some(x.via.deadline)
            && FromIso(x.via.deadline).Some? && x.at <= FromIso(x.via.deadline).value
  {
    var s := Run(cfg, es);
    var t := s.execs[k].task;
    ExecutionOf(cfg, es, k);
    ReviewedEnding(cfg.failMode, s.done[t], Of(s.replies, t), s.execs[k].item);
    RunClosing(cfg, es, t);
  }

  lemma HeldFirst(cfg: Config, c: Cell, t: Task)
    requires CallInv(cfg, c, t) && c.log != [] && IsPending(c.log[0]) && Fixed(c)
    requires c.done.Some? && c.done.value.deadline.Some?
    ensures c.log[0].deadline == c.done.value.deadline
  {
  }

  /** A call that is held was opened by its first record, before. */
  lemma OpenedBefore(cfg: Config, es: seq<Event>, t: Task, n: nat, m: nat)
    requires m <= |es| && n <= |es| && CellRun(cfg, es[..m], t).slot.Some? && CellRun(cfg, es[..n], t).log == []
    ensures n < m
    ensures CellRun(cfg, es, t).log != [] && IsPending(CellRun(cfg, es, t).log[0])
  {
    HeldRunOpened(cfg, es[..m], t);
    assert es[..m] + es[m..] == es;
    RunGrows(cfg, es[..m], es[m..], t);
    if m <= n {
      assert es[..n] == es[..m] + es[m..n];
      RunGrows(cfg, es[..m], es[m..n], t);
    }
  }

  lemma OpenedFirst(cfg: Config, es: seq<Event>, t: Task, m: nat) returns (n: nat)
    requires Good(es, t) && m <= |es| && CellRun(cfg, es[..m], t).slot.Some?
    ensures n < m && Asks(cfg, es, t, n)
    ensures var log := Of(Run(cfg, es).log, t);
            log != [] && IsPending(log[0]) && OpenedBy(cfg, log[0], es[n].env.reply, Run(cfg, es[..n]).now)
  {
    OpenedBefore(cfg, es, t, 0, m);
    RunLocal(cfg, es, t);
    n := FixedOnFirstPass(cfg, es, t);
    PrefixLocal(cfg, es, t, n);
    OpenedBefore(cfg, es, t, n, m);
  }

  /** The execution x rests on an approval in time: the n-th pass was the one that opened the call,
      asking the provider and getting a review; the m-th event then gave a response that approves,
      and nothing else answered since; the j-th pass ran the tool, no later than the n-th pass's
      moment plus the window it was answered with. */
  predicate ApprovedInTime(cfg: Config, es: seq<Event>, t: Task, x: Exec, n: nat, m: nat, j: nat) {
    var log := Of(Run(cfg, es).log, t);
    && x.via.Reviewed? && Approves(x.via.response)
    && n < m && Asks(cfg, es, t, n) && Gives(cfg, es, t, x.via.response, m, j)
    && About(es[j], t) && Run(cfg, es[..j]).now == x.at
    && log != [] && IsPending(log[0]) && OpenedBy(cfg, log[0], es[n].env.reply, Run(cfg, es[..n]).now)
    && x.at <= Run(cfg, es[..n]).now + EffectiveWindow(cfg, es[n].env.reply)
  }

  lemma ReviewedInTime(cfg: Config, es: seq<Event>, t: Task, x: Exec, m: nat, j: nat) returns (n: nat)
    requires Good(es, t) && Never(cfg, Moving, es, t) && t in Run(cfg, es).done
    requires x.via.Reviewed? && FromPayload(x.via.response).None? && Approves(x.via.response)
    requires Gives(cfg, es, t, x.via.response, m, j) && About(es[j], t) && Run(cfg, es[..j]).now == x.at
    requires var s := Run(cfg, es); Facts(cfg.failMode, s.done[t], Of(s.replies, t), [x])
    ensures ApprovedInTime(cfg, es, t, x, n, m, j)
  {
    var s := Run(cfg, es);
    PrefixLocal(cfg, es, t, m);
    n := OpenedFirst(cfg, es, t, m);
    ReviewedEnding(cfg.failMode, s.done[t], Of(s.replies, t), x);
    RunLocal(cfg, es, t);
    RunKeeps(cfg, es, t);
    NeverInside(cfg, Moving, es, t);
    RunFixed(cfg, es, t);
    assert Look(s.done, t) == CellRun(cfg, es, t).done;
    HeldFirst(cfg, CellRun(cfg, es, t), t);
  }

  /** Approval safety over all runs. Under fail-closed, a call that policy never allows outright
      (it says review, denies, or is out) runs only after a response that was given to it and
      approves, no later than the deadline fixed on its first pass; provided no pass moved the
      deadline and the response is not a hold itself. Ticks, repeated passes, other calls,
      responses, watchdog sentinels, losses of memory, outages and unreadable states may come in
      any order. */
  lemma ApprovalSafety(cfg: Config, es: seq<Event>, k: nat) returns (n: nat, m: nat, j: nat)
    requires k < |Run(cfg, es).execs| && cfg.failMode == Closed
    requires var t, x := Run(cfg, es).execs[k].task, Run(cfg, es).execs[k].item;
             && Good(es, t) && NeverAllowed(cfg, es, t) && Never(cfg, Moving, es, t)
             && (x.via.Reviewed? ==> FromPayload(x.via.response).None?)
    ensures var t, x := Run(cfg, es).execs[k].task, Run(cfg, es).execs[k].item;
            ApprovedInTime(cfg, es, t, x, n, m, j)
  {
    var t, x := Run(cfg, es).execs[k].task, Run(cfg, es).execs[k].item;
    ExecutionOf(cfg, es, k);
    n, m, j := Provenance(cfg, es, k);
    n := ReviewedInTime(cfg, es, t, x, m, j);
  }
}
