/** Every pass, response and loss of memory acts on one call at a time: the whole system,
    with its string-keyed memory and its shared checkpoint, runs as the reference semantics
    says for each call separately. */
module Locality {
  import opened Text
  import opened Json
  import opened Domain
  import opened Review
  import opened Telemetry
  import opened Protocol
  import opened Cells

  predicate FromSource(s: Sys, i: Intent, d: Decision, h: Hold, source: Source, fallback: int) {
    match source
    case Memory => d.hold == Some(h) && !d.recovered && View(s, Key(i)).entry == Some(Entry(d.result, h))
    case Checkpoint => d.hold == Some(h) && d.recovered
    case Nowhere => d.hold == None && h == BuildHold(i, d.result, fallback, s.now)
  }

  lemma SettledLocal(s: Sys, i: Intent, h: Hold, response: Json, o: Outcome, replay: bool, env: Env)
    requires Sound(s) && ColonFree(Key(i))
    ensures var res := Resolution(o, h, replay, response);
            var s' := if o.state == Approved then s
                      else Emit(s, DecisionRecord(i, o.result, Some(o.state), Some(h.deadline), replay));
            Local(s, ActReviewed(s', i, res, env), Key(i),
                  Settled(View(s, Key(i)), i, h, response, o, replay, env))
  {
    var t := Key(i);
    var d, rec := SettledDone(h, response, o, s.now), SettledRecord(i, h, o, replay, env);
    if o.state == Approved {
      var via := Reviewed(response, Governing(h, response).deadline);
      ExecuteLocal(s, t, via);
      EmitLocal(Execute(s, t, via), rec);
      CompleteLocal(Emit(Execute(s, t, via), rec), t, d);
    } else {
      EmitLocal(s, rec);
      CompleteLocal(Emit(s, rec), t, d);
      assert View(s, t).execs + [] == View(s, t).execs;
    }
  }

  /** Remembering the hold, unless it came from memory. */
  function Noted(s: Sys, r: ControlResult, h: Hold, source: Source): Sys {
    if source.Memory? then s else Remember(s, r, h)
  }

  lemma NotedLocal(s: Sys, i: Intent, r: ControlResult, h: Hold, source: Source)
    requires Sound(s) && ColonFree(Key(i)) && h.holdId == HoldId(i) && r.verdict == Verdict.Review
    ensures Local(s, Noted(s, r, h, source), Key(i),
                  if source.Memory? then View(s, Key(i)) else View(s, Key(i)).(entry := Some(Entry(r, h))))
  {
    if !source.Memory? {
      RememberLocal(s, r, h, Key(i));
    }
  }

  lemma UnansweredLocal(cfg: Config, s: Sys, i: Intent, d: Decision, h: Hold, source: Source, env: Env)
    requires Sound(s) && ColonFree(Key(i)) && h.holdId == HoldId(i)
    requires FromSource(s, i, d, h, source, cfg.fallback) && d.result.verdict == Verdict.Review
    requires Key(i) !in s.responses
    ensures Local(s, Act(cfg, s, i, d, env), Key(i),
                  HeldPass(View(s, Key(i)), i, d.result, h, source, env))
  {
    var t, r := Key(i), d.result;
    NotedLocal(s, i, r, h, source);
    var s1 := Noted(s, r, h, source);
    var s2 := s1.(board := Put(s1.board, t, ToPayload(h)));
    StoreLocal(s1, t, h);
    if source.Nowhere? {
      EmitLocal(s2, PendingRecord(i, r, h, false));
    }
  }

  /** A hold that was not in memory is remembered and its pending record replayed. */
  function Replayed(s: Sys, i: Intent, r: ControlResult, h: Hold, source: Source): Sys {
    if source.Memory? then s else Emit(Remember(s, r, h), PendingRecord(i, r, h, true))
  }

  function ReplayedCell(c: Cell, i: Intent, r: ControlResult, h: Hold, source: Source): Cell {
    if source.Memory? then c else Logged(c.(entry := Some(Entry(r, h))), PendingRecord(i, r, h, true))
  }

  lemma ReplayedLocal(s: Sys, i: Intent, r: ControlResult, h: Hold, source: Source)
    requires Sound(s) && ColonFree(Key(i)) && h.holdId == HoldId(i) && r.verdict == Verdict.Review
    ensures Local(s, Replayed(s, i, r, h, source), Key(i), ReplayedCell(View(s, Key(i)), i, r, h, source))
  {
    if !source.Memory? {
      RememberLocal(s, r, h, Key(i));
      EmitLocal(Remember(s, r, h), PendingRecord(i, r, h, true));
    }
  }

  /** What an answered review comes to, once its hold is noted and its record replayed. */
  function Concluded(s: Sys, i: Intent, r: ControlResult, h: Hold, response: Json, replay: bool, env: Env): Sys {
    match Resolve(Governing(h, response), response, r, s.now)
    case None => s
    case Some(o) =>
      var s1 := Forget(s, h.holdId);
      var s2 := if o.state == Approved then s1
                else Emit(s1, DecisionRecord(i, o.result, Some(o.state), Some(h.deadline), replay));
      ActReviewed(s2, i, Resolution(o, h, replay, response), env)
  }

  lemma AnsweredConcludes(cfg: Config, s: Sys, i: Intent, d: Decision, h: Hold, source: Source, env: Env)
    requires FromSource(s, i, d, h, source, cfg.fallback) && d.result.verdict == Verdict.Review
    requires Key(i) in s.responses
    ensures Act(cfg, s, i, d, env) ==
            Concluded(Replayed(s, i, d.result, h, source), i, d.result, h, s.responses[Key(i)], !source.Memory?, env)
  {
  }

  lemma ConcludedLocal(s: Sys, i: Intent, r: ControlResult, h: Hold, source: Source, env: Env)
    requires Sound(s) && ColonFree(Key(i)) && h.holdId == HoldId(i) && Key(i) in s.responses
    ensures var response, replay := s.responses[Key(i)], !source.Memory?;
            Local(s, Concluded(s, i, r, h, response, replay, env), Key(i),
                  Concluding(View(s, Key(i)), i, r, h, response, replay, env))
  {
    var response := s.responses[Key(i)];
    var o := Resolve(Governing(h, response), response, r, s.now);
    if o.Some? {
      ForgetLocal(s, Key(i));
      SettledLocal(Forget(s, h.holdId), i, h, response, o.value, !source.Memory?, env);
    }
  }

  lemma AnsweredLocal(cfg: Config, s: Sys, i: Intent, d: Decision, h: Hold, source: Source, env: Env)
    requires Sound(s) && ColonFree(Key(i)) && h.holdId == HoldId(i)
    requires FromSource(s, i, d, h, source, cfg.fallback) && d.result.verdict == Verdict.Review
    requires Key(i) in s.responses
    ensures Local(s, Act(cfg, s, i, d, env), Key(i),
                  HeldPass(View(s, Key(i)), i, d.result, h, source, env))
  {
    ReplayedLocal(s, i, d.result, h, source);
    AnsweredConcludes(cfg, s, i, d, h, source, env);
    ConcludedLocal(Replayed(s, i, d.result, h, source), i, d.result, h, source, env);
  }

  lemma HeldLocal(cfg: Config, s: Sys, i: Intent, d: Decision, h: Hold, source: Source, env: Env)
    requires Sound(s) && ColonFree(Key(i)) && h.holdId == HoldId(i)
    requires FromSource(s, i, d, h, source, cfg.fallback) && d.result.verdict == Verdict.Review
    ensures Local(s, Act(cfg, s, i, d, env), Key(i),
                  HeldPass(View(s, Key(i)), i, d.result, h, source, env))
  {
    if Key(i) in s.responses {
      AnsweredLocal(cfg, s, i, d, h, source, env);
    } else {
      UnansweredLocal(cfg, s, i, d, h, source, env);
    }
  }

  lemma DirectLocal(s: Sys, i: Intent, r: ControlResult, env: Env)
    requires Sound(s) && ColonFree(Key(i))
    ensures Local(s, ActDirect(s, i, r, env), Key(i), DirectPass(View(s, Key(i)), i, r, env))
  {
    var t := Key(i);
    if r.verdict == Deny {
      var rec := DecisionRecord(i, r, None, None, false);
      EmitLocal(s, rec);
      CompleteLocal(Emit(s, rec), t,
                    Done(Some(DenyMessage(r)), if r.unavailable then DeniedByOutage else DeniedByRule, s.now,
                         None, None));
    } else {
      var rec := ExecutionRecord(i, r, None, None, false, env.failure);
      var s1 := Execute(s, t, Direct(env.reply));
      ExecuteLocal(s, t, Direct(env.reply));
      EmitLocal(s1, rec);
      CompleteLocal(Emit(s1, rec), t, Done(None, if r.unavailable then RanUnauthorized else Ran, s.now, None, None));
    }
  }

  /** Recovery yields a hold of the call, and reads the call's own interrupt back unless other
      code poses as it. */
  lemma RecoveryFindsOwn(s: Sys, i: Intent, readable: bool)
    requires Sound(s) && WellFormed(i)
    ensures Recovered(s.board, i, readable).Some? ==> Recovered(s.board, i, readable).value.holdId == HoldId(i)
    ensures Apart(s.board, Key(i)) ==>
              Recovered(s.board, i, readable) == if readable then SlotHold(View(s, Key(i)).slot) else None
  {
    if Apart(s.board, Key(i)) {
      ScanFindsOwn(s.board, Key(i));
    }
    ScanKeepsId(Snapshot(s.board, i.threadId.value), HoldId(i));
  }

  lemma {:induction false} ScanKeepsId(payloads: seq<Json>, id: string)
    ensures Scan(payloads, id).Some? ==> Scan(payloads, id).value.holdId == id
  {
    if payloads != [] {
      ScanKeepsId(payloads[1..], id);
    }
  }

  lemma TurnLocal(cfg: Config, s: Sys, i: Intent, env: Env, r: ControlResult, found: Option<Hold>)
    requires Sound(s) && WellFormed(i) && (found.Some? ==> found.value.holdId == HoldId(i))
    ensures Local(s, Act(cfg, s, i, Decision(r, found, found.Some?), env), Key(i),
                  if r.verdict != Verdict.Review then DirectPass(View(s, Key(i)), i, r, env)
                  else if found.Some? then HeldPass(View(s, Key(i)), i, r, found.value, Checkpoint, env)
                  else HeldPass(View(s, Key(i)), i, r, BuildHold(i, r, cfg.fallback, s.now), Nowhere, env))
  {
    if r.verdict != Verdict.Review {
      DirectLocal(s, i, r, env);
    } else if found.Some? {
      HeldLocal(cfg, s, i, Decision(r, found, true), found.value, Checkpoint, env);
    } else {
      HeldLocal(cfg, s, i, Decision(r, found, false), BuildHold(i, r, cfg.fallback, s.now), Nowhere, env);
    }
  }

  lemma ActLocal(cfg: Config, s: Sys, s1: Sys, i: Intent, env: Env, r: ControlResult, found: Option<Hold>)
    requires WellFormed(i) && (found.Some? ==> found.value.holdId == HoldId(i)) && s1.now == s.now
    requires Local(s, s1, Key(i), View(s1, Key(i)))
    ensures Local(s, Act(cfg, s1, i, Decision(r, found, found.Some?), env), Key(i),
                  if r.verdict != Verdict.Review then DirectPass(View(s1, Key(i)), i, r, env)
                  else if found.Some? then HeldPass(View(s1, Key(i)), i, r, found.value, Checkpoint, env)
                  else HeldPass(View(s1, Key(i)), i, r, BuildHold(i, r, cfg.fallback, s.now), Nowhere, env))
  {
    TurnLocal(cfg, s1, i, env, r, found);
    var s2 := Act(cfg, s1, i, Decision(r, found, found.Some?), env);
    LocalChain(s, s1, s2, Key(i), View(s1, Key(i)),
               if r.verdict != Verdict.Review then DirectPass(View(s1, Key(i)), i, r, env)
               else if found.Some? then HeldPass(View(s1, Key(i)), i, r, found.value, Checkpoint, env)
               else HeldPass(View(s1, Key(i)), i, r, BuildHold(i, r, cfg.fallback, s.now), Nowhere, env));
  }

  /** A pass that asks the provider, step by step. */
  lemma ConsultActs(cfg: Config, s: Sys, i: Intent, env: Env)
    requires Key(i) !in s.done && HoldId(i) !in s.pending
    ensures var s1 := s.(replies := s.replies + [Tagged(Key(i), env.reply)]);
            var a, found := Authorized(cfg, env), Recovered(s.board, i, env.stateReadable);
            Pass(cfg, s, i, env) ==
            if a.Answered? && Enforceable(cfg, a.result.verdict)
            then Act(cfg, s1, i, Decision(a.result, found, found.Some?), env) else s1
  {
  }

  /** The turn of such a pass, given whether the adapter can enforce the answer. */
  lemma ConsultTakes(cfg: Config, c: Cell, i: Intent, env: Env, found: Option<Hold>)
    requires c.done.None? && c.entry.None?
    ensures var c1, a := c.(replies := c.replies + [env.reply]), Authorized(cfg, env);
            Taken(TurnFinding(cfg, c, i, env, found), i, env) ==
            if !(a.Answered? && Enforceable(cfg, a.result.verdict)) then c1
            else if a.result.verdict != Verdict.Review then DirectPass(c1, i, a.result, env)
            else if found.Some? then HeldPass(c1, i, a.result, found.value, Checkpoint, env)
            else HeldPass(c1, i, a.result, BuildHold(i, a.result, cfg.fallback, c.now), Nowhere, env)
  {
  }

  lemma ConsultLocal(cfg: Config, s: Sys, i: Intent, env: Env)
    requires Sound(s) && WellFormed(i) && Key(i) !in s.done && HoldId(i) !in s.pending
    ensures Local(s, Pass(cfg, s, i, env), Key(i),
                  Taken(TurnFinding(cfg, View(s, Key(i)), i, env, Recovered(s.board, i, env.stateReadable)), i, env))
  {
    var t, a, found := Key(i), Authorized(cfg, env), Recovered(s.board, i, env.stateReadable);
    var s1 := s.(replies := s.replies + [Tagged(t, env.reply)]);
    ReplyLocal(s, t, env.reply);
    ConsultActs(cfg, s, i, env);
    ConsultTakes(cfg, View(s, t), i, env, found);
    RecoveryFindsOwn(s, i, env.stateReadable);
    if a.Answered? && Enforceable(cfg, a.result.verdict) {
      ActLocal(cfg, s, s1, i, env, a.result, found);
    }
  }

  /** One pass over a call leaves every other call's memory, interrupt, response, completion,
      records and executions as they were; and it is the reference pass over its own view,
      unless other code poses as its hold. */
  lemma PassLocal(cfg: Config, s: Sys, i: Intent, env: Env)
    requires Sound(s) && WellFormed(i)
    ensures Local(s, Pass(cfg, s, i, env), Key(i), View(Pass(cfg, s, i, env), Key(i)))
    ensures Apart(s.board, Key(i)) ==>
              View(Pass(cfg, s, i, env), Key(i)) == CellPass(cfg, View(s, Key(i)), i, env)
  {
    if Key(i) in s.done {
    } else if HoldId(i) in s.pending {
      var e := s.pending[HoldId(i)];
      HeldLocal(cfg, s, i, Decision(e.result, Some(e.hold), false), e.hold, Memory, env);
    } else {
      ConsultLocal(cfg, s, i, env);
      RecoveryFindsOwn(s, i, env.stateReadable);
    }
  }

  lemma ForeignLocal(s: Sys, thread: string, payload: Json, u: Task)
    requires Sound(s) && Apart(s.board, u) && !Poses(thread, payload, u)
    ensures var s' := s.(board := s.board + [Other(thread, payload)]);
            Sound(s') && Apart(s'.board, u) && View(s', u) == View(s, u)
  {
    StoredOther(s.board, thread, payload, u);
    ApartOther(s.board, thread, payload, u);
  }

  lemma PassSeen(cfg: Config, s: Sys, i: Intent, env: Env, u: Task)
    requires Sound(s) && WellFormed(i) && ColonFree(u) && Apart(s.board, u)
    ensures var s' := Pass(cfg, s, i, env);
            && Sound(s') && Apart(s'.board, u)
            && View(s', u) == if Key(i) == u then CellPass(cfg, View(s, u), i, env) else View(s, u)
  {
    PassLocal(cfg, s, i, env);
  }

  lemma ResumeSeen(cfg: Config, s: Sys, i: Intent, response: Json, env: Env, u: Task)
    requires Sound(s) && WellFormed(i) && ColonFree(u) && Apart(s.board, u)
    ensures var e := Resume(i, response, env); var s' := Apply(cfg, s, e);
            && Sound(s') && Apart(s'.board, u)
            && View(s', u) == CellApply(cfg, View(s, u), e, u)
  {
    if Stored(s.board, Key(i)).Some? {
      PassSeen(cfg, s.(responses := s.responses[Key(i) := response]), i, env, u);
    }
  }

  lemma EventLocal(cfg: Config, s: Sys, e: Event, u: Task)
    requires Sound(s) && GoodEvent(e, u) && ColonFree(u) && Apart(s.board, u)
    ensures Sound(Apply(cfg, s, e)) && Apart(Apply(cfg, s, e).board, u)
    ensures View(Apply(cfg, s, e), u) == CellApply(cfg, View(s, u), e, u)
  {
    match e
    case Tick(_) =>
    case LoseMemory =>
    case Foreign(thread, payload) => ForeignLocal(s, thread, payload, u);
    case Call(i, env) => PassSeen(cfg, s, i, env, u);
    case Resume(i, response, env) => ResumeSeen(cfg, s, i, response, env, u);
  }

  /** The whole system, seen from any one call, runs the reference semantics of that call. */
  lemma {:induction false} RunLocal(cfg: Config, es: seq<Event>, t: Task)
    requires Good(es, t)
    ensures Sound(Run(cfg, es)) && Apart(Run(cfg, es).board, t)
    ensures View(Run(cfg, es), t) == CellRun(cfg, es, t)
  {
    if es != [] {
      RunLocal(cfg, es[..|es| - 1], t);
      assert GoodEvent(es[|es| - 1], t);
      EventLocal(cfg, Run(cfg, es[..|es| - 1]), es[|es| - 1], t);
    }
  }

  lemma RunStep(cfg: Config, es: seq<Event>, e: Event)
    ensures Run(cfg, es + [e]) == Apply(cfg, Run(cfg, es), e)
  {
    assert (es + [e])[..|es|] == es;
  }

  // ---------------------------------------------------------------- growth

  /** Only call t's items were added. */
  predicate Adds<T(==)>(xs: seq<Tagged<T>>, ys: seq<Tagged<T>>, t: Task) {
    xs <= ys && forall k :: |xs| <= k < |ys| ==> ys[k].task == t
  }

  predicate Grew(s: Sys, s': Sys, t: Task) {
    Adds(s.log, s'.log, t) && Adds(s.execs, s'.execs, t) && s.now == s'.now
  }

  lemma EmitGrows(s: Sys, s': Sys, rec: Record)
    requires Grew(s, s', Key(rec.intent))
    ensures Grew(s, Emit(s', rec), Key(rec.intent))
  {
  }

  lemma ReviewGrows(cfg: Config, s: Sys, i: Intent, d: Decision)
    ensures Grew(s, RunReview(cfg, s, i, d).sys, Key(i))
  {
    var known := d.hold.Some? && !d.recovered;
    var hold := if d.hold.Some? then d.hold.value else BuildHold(i, d.result, cfg.fallback, s.now);
    var s1 := if known then s else Remember(s, d.result, hold);
    var Step(s2, answer) := Interrupt(s1, Key(i), ToPayload(hold));
    EmitGrows(s, s2, PendingRecord(i, d.result, hold, false));
    if answer.Go? {
      EmitGrows(s, s2, PendingRecord(i, d.result, hold, true));
      var s3 := if known then s2 else Emit(s2, PendingRecord(i, d.result, hold, true));
      var o := Resolve(Governing(hold, answer.value), answer.value, d.result, s.now);
      if o.Some? {
        EmitGrows(s, Forget(s3, hold.holdId),
                  DecisionRecord(i, o.value.result, Some(o.value.state), Some(hold.deadline), !known));
      }
    }
  }

  lemma ActGrows(cfg: Config, s: Sys, i: Intent, d: Decision, env: Env)
    ensures Grew(s, Act(cfg, s, i, d, env), Key(i))
  {
    if d.result.verdict == Verdict.Review {
      ReviewGrows(cfg, s, i, d);
      var Step(s', flow) := RunReview(cfg, s, i, d);
      if flow.Go? {
        assert Grew(s', ActReviewed(s', i, flow.value, env), Key(i));
      }
    }
  }

  /** A pass over a call only adds records and executions, and only of that call. */
  lemma PassGrows(cfg: Config, s: Sys, i: Intent, env: Env)
    ensures Grew(s, Pass(cfg, s, i, env), Key(i))
  {
    if Key(i) !in s.done {
      var Step(s', flow) := Decide(cfg, s, i, env);
      if flow.Go? {
        ActGrows(cfg, s', i, flow.value, env);
      }
    }
  }

  lemma EventGrows(cfg: Config, s: Sys, e: Event)
    ensures s.log <= Apply(cfg, s, e).log && s.execs <= Apply(cfg, s, e).execs
    ensures e.Call? || e.Resume? ==> Grew(s, Apply(cfg, s, e), Key(e.intent))
  {
    match e
    case Tick(_) =>
    case LoseMemory =>
    case Foreign(_, _) =>
    case Call(i, env) => PassGrows(cfg, s, i, env);
    case Resume(i, response, env) => PassGrows(cfg, s.(responses := s.responses[Key(i) := response]), i, env);
  }

  /** From s to s' memory gained at most an entry filed under this id. */
  predicate FilesAt(s: Sys, s': Sys, id: string) {
    s'.pending.Keys <= s.pending.Keys + {id}
  }

  lemma ReviewFiles(cfg: Config, s: Sys, i: Intent, d: Decision)
    requires d.hold.Some? ==> d.hold.value.holdId == HoldId(i)
    ensures FilesAt(s, RunReview(cfg, s, i, d).sys, HoldId(i))
  {
    var hold := if d.hold.Some? then d.hold.value else BuildHold(i, d.result, cfg.fallback, s.now);
    assert FilesAt(s, Remember(s, d.result, hold), HoldId(i));
  }

  lemma ActFiles(cfg: Config, s: Sys, i: Intent, d: Decision, env: Env)
    requires d.hold.Some? ==> d.hold.value.holdId == HoldId(i)
    ensures FilesAt(s, Act(cfg, s, i, d, env), HoldId(i))
  {
    ReviewFiles(cfg, s, i, d);
  }

  lemma DecideFinds(cfg: Config, s: Sys, i: Intent, env: Env)
    requires forall id :: id in s.pending ==> s.pending[id].hold.holdId == id
    ensures var Step(s', flow) := Decide(cfg, s, i, env);
            s'.pending == s.pending && (flow.Go? && flow.value.hold.Some? ==> flow.value.hold.value.holdId == HoldId(i))
  {
    if i.threadId.Some? {
      ScanKeepsId(Snapshot(s.board, i.threadId.value), HoldId(i));
    }
  }

  lemma PassFiles(cfg: Config, s: Sys, i: Intent, env: Env)
    requires forall id :: id in s.pending ==> s.pending[id].hold.holdId == id
    ensures FilesAt(s, Pass(cfg, s, i, env), HoldId(i))
  {
    DecideFinds(cfg, s, i, env);
    var Step(s', flow) := Decide(cfg, s, i, env);
    if flow.Go? {
      ActFiles(cfg, s', i, flow.value, env);
    }
  }

  /** Every entry in memory is filed under the hold id of a call of the run. */
  lemma {:induction false} PendingKeys(cfg: Config, es: seq<Event>, t: Task, id: string) returns (i: Intent)
    requires Good(es, t) && id in Run(cfg, es).pending
    ensures WellFormed(i) && HoldId(i) == id
  {
    var init, e := es[..|es| - 1], es[|es| - 1];
    var s := Run(cfg, init);
    RunLocal(cfg, init, t);
    assert GoodEvent(e, t);
    if id in s.pending {
      i := PendingKeys(cfg, init, t, id);
    } else {
      i := e.intent;
      if e.Call? {
        PassFiles(cfg, s, i, e.env);
      } else {
        PassFiles(cfg, s.(responses := s.responses[Key(i) := e.response]), i, e.env);
      }
    }
  }

  // ---------------------------------------------------------------- non-interference

  /** The run without every other call's passes and responses. */
  function Only(es: seq<Event>, t: Task): seq<Event> {
    if es == [] then []
    else
      var init, last := es[..|es| - 1], es[|es| - 1];
      if (last.Call? || last.Resume?) && !About(last, t) then Only(init, t) else Only(init, t) + [last]
  }

  lemma {:induction false} OnlyGood(es: seq<Event>, t: Task)
    requires Good(es, t)
    ensures Good(Only(es, t), t)
  {
    if es != [] {
      OnlyGood(es[..|es| - 1], t);
      assert GoodEvent(es[|es| - 1], t);
    }
  }

  lemma {:induction false} CellRunOnly(cfg: Config, es: seq<Event>, t: Task)
    ensures CellRun(cfg, Only(es, t), t) == CellRun(cfg, es, t)
  {
    if es != [] {
      var init, last := es[..|es| - 1], es[|es| - 1];
      CellRunOnly(cfg, init, t);
      if !((last.Call? || last.Resume?) && !About(last, t)) {
        assert Only(es, t)[..|Only(es, t)| - 1] == Only(init, t);
      }
    }
  }

  /** Non-interference of concurrent calls: deleting every pass and response of all other
      calls from a run changes nothing a call can see of itself: its entry, interrupt,
      response, completion, records and executions. */
  lemma NonInterference(cfg: Config, es: seq<Event>, t: Task)
    requires Good(es, t)
    ensures View(Run(cfg, Only(es, t)), t) == View(Run(cfg, es), t)
  {
    RunLocal(cfg, es, t);
    OnlyGood(es, t);
    RunLocal(cfg, Only(es, t), t);
    CellRunOnly(cfg, es, t);
  }
}
