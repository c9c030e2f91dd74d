/** Losing the middleware's memory is invisible: a run with losses and the same run without
    them agree on everything but replay marks. */
module MemoryLoss {
  import opened Text
  import opened Json
  import opened Domain
  import opened Opa
  import opened Review
  import opened Telemetry
  import opened Protocol
  import opened Cells
  import opened Locality
  import opened Histories

  // ---------------------------------------------------------------- what is compared

  /** What is compared of two results: in full everything but the audit id of the query, else the
      verdict, the rule and the marks of an outage. */
  function Compared(r: ControlResult, full: bool): ControlResult {
    if full then Anonymous(r) else r.(decisionId := JNull, evidence := [], reason := "", window := None)
  }

  /** A record without its replay mark. */
  function Unmarked(rec: Record, full: bool): Record {
    rec.(result := Compared(rec.result, full), replay := false)
  }

  predicate IsReplay(rec: Record) {
    IsPending(rec) && rec.replay
  }

  /** A call's records without replayed pending ones, unmarked. */
  function Norm(log: seq<Record>, full: bool): seq<Record> {
    if log == [] then []
    else
      var init, last := log[..|log| - 1], log[|log| - 1];
      if IsReplay(last) then Norm(init, full) else Norm(init, full) + [Unmarked(last, full)]
  }

  /** The whole record log, compared in full. */
  function NormAll(log: seq<Tagged<Record>>): seq<Tagged<Record>> {
    if log == [] then []
    else
      var init, last := log[..|log| - 1], log[|log| - 1];
      if IsReplay(last.item) then NormAll(init)
      else NormAll(init) + [Tagged(last.task, Unmarked(last.item, true))]
  }

  /** The same run in which memory is never lost. */
  function Without(es: seq<Event>): seq<Event> {
    if es == [] then []
    else
      var init, last := es[..|es| - 1], es[|es| - 1];
      if last.LoseMemory? then Without(init) else Without(init) + [last]
  }

  predicate SameAnswer(a: Answer, b: Answer) {
    if a.Answered? && b.Answered? then Anonymous(a.result) == Anonymous(b.result) else a == b
  }

  // ---------------------------------------------------------------- hypotheses

  /** The rule a reply names, as a hold keeps it. */
  function RuleOf(reply: Transport): Json {
    if ResultBlock(reply).Some? then OptText(OptionalStr(Get(ResultBlock(reply).value, "policy_id"))) else JNull
  }

  /** A pass that asks about a held call again, because memory lost it. */
  predicate AsksAgain(cfg: Config, es: seq<Event>, t: Task, k: nat) {
    Asks(cfg, es, t, k) && Stored(Run(cfg, es[..k]).board, t).Some?
  }

  /** Such a pass can read the state. */
  predicate Recoverable(cfg: Config, es: seq<Event>, t: Task) {
    forall k {:trigger AsksAgain(cfg, es, t, k)} ::
      0 <= k < |es| && AsksAgain(cfg, es, t, k) ==> es[k].env.stateReadable
  }

  predicate NamesRule(hold: Option<Hold>, reply: Transport) {
    Decides(reply, Verdict.Review) && hold.Some? && RuleOf(reply) == hold.value.policyId
  }

  /** Such a pass is answered with a review under the rule of the stored hold. */
  predicate SameRule(cfg: Config, es: seq<Event>, t: Task) {
    forall k {:trigger AsksAgain(cfg, es, t, k)} :: 0 <= k < |es| && AsksAgain(cfg, es, t, k) ==>
      NamesRule(SlotHold(Stored(Run(cfg, es[..k]).board, t)), es[k].env.reply)
  }

  /** Whenever policy is asked about the call it gives the same result, evidence included, up to
      the audit id of the query. */
  predicate Pure(cfg: Config, es: seq<Event>, t: Task) {
    forall j, k {:trigger Asks(cfg, es, t, j), Asks(cfg, es, t, k)} ::
      0 <= j < |es| && 0 <= k < |es| && Asks(cfg, es, t, j) && Asks(cfg, es, t, k) ==>
      SameAnswer(Authorized(cfg, es[j].env), Authorized(cfg, es[k].env))
  }

  // ---------------------------------------------------------------- the simulation

  /** A review result that may stand for the hold: in full it is policy's one answer, else it names
      the rule the hold keeps. */
  predicate Expected(cfg: Config, r: ControlResult, h: Hold, a: Answer, full: bool) {
    && r.verdict == Verdict.Review && Enforceable(cfg, r.verdict)
    && r.provider == PROVIDER && !r.unavailable && r.failMode.None? && h.policyId == OptText(r.policyId)
    && (full ==> a.Answered? && Anonymous(a.result) == Anonymous(r))
  }

  /** c has lived through losses, c' has not. */
  predicate Alike(cfg: Config, c: Cell, c': Cell, a: Answer, full: bool) {
    && c.now == c'.now && c.slot == c'.slot && c.response == c'.response && c.done == c'.done && c.execs == c'.execs
    && Norm(c.log, full) == Norm(c'.log, full)
    && (c'.entry.Some? <==> c.slot.Some?)
    && (c.slot.None? ==> c.response.None?)
    && (c'.entry.Some? ==>
          && c.slot == Some(ToPayload(c'.entry.value.hold))
          && Expected(cfg, c'.entry.value.result, c'.entry.value.hold, a, full))
    && (c.entry.Some? ==>
          && c'.entry.Some? && c.entry.value.hold == c'.entry.value.hold
          && Expected(cfg, c.entry.value.result, c.entry.value.hold, a, full))
  }

  lemma ExpectedCompare(cfg: Config, r: ControlResult, r': ControlResult, h: Hold, a: Answer, full: bool)
    requires Expected(cfg, r, h, a, full) && Expected(cfg, r', h, a, full)
    ensures Compared(r, full) == Compared(r', full)
  {
  }

  /** What the answer to a pass on a held call must be for the hold it reads back. */
  predicate StepSteady(cfg: Config, c: Cell, env: Env, a: Answer, full: bool) {
    && (c.slot.Some? ==> env.stateReadable && (!full ==> NamesRule(SlotHold(c.slot), env.reply)))
    && (full ==> SameAnswer(Authorized(cfg, env), a))
  }

  lemma ReviewExpected(cfg: Config, env: Env, r: ControlResult, a: Answer, full: bool)
    requires Authorized(cfg, env) == Answered(r) && r.verdict == Verdict.Review
    ensures r.provider == PROVIDER && !r.unavailable && r.failMode.None? && OptText(r.policyId) == RuleOf(env.reply)
  {
    Classified(cfg.failMode, env.reply, Collected(env.gathered));
    Block(cfg.failMode, env.reply, Collected(env.gathered));
    Word(Get(ResultBlock(env.reply).value, "decision"), Verdict.Review);
  }

  lemma NormAppend(log: seq<Record>, rec: Record, full: bool)
    ensures Norm(log + [rec], full) ==
            if IsReplay(rec) then Norm(log, full) else Norm(log, full) + [Unmarked(rec, full)]
  {
    assert (log + [rec])[..|log|] == log;
  }

  /** What is not compared of a result reaches nothing that is compared of its resolution. */
  lemma ResolveCompared(h: Hold, response: Json, r: ControlResult, r': ControlResult, now: int, full: bool)
    requires Compared(r, full) == Compared(r', full)
    ensures var o, o' := Resolve(h, response, r, now), Resolve(h, response, r', now);
            && o.Some? == o'.Some?
            && (o.Some? ==>
                  && o.value.state == o'.value.state && o.value.state != Pending
                  && Compared(o.value.result, full) == Compared(o'.value.result, full)
                  && (o.value.state != Approved ==> DenyMessage(o.value.result) == DenyMessage(o'.value.result)))
  {
  }

  lemma SettledAlike(cfg: Config, c: Cell, c': Cell, i: Intent, h: Hold, response: Json,
                     o: Outcome, o': Outcome, replay: bool, replay': bool, env: Env, a: Answer, full: bool)
    requires c.now == c'.now && c.execs == c'.execs && Norm(c.log, full) == Norm(c'.log, full)
    requires c.entry.None? && c'.entry.None?
    requires o.state == o'.state && Compared(o.result, full) == Compared(o'.result, full) && o.state != Pending
    requires o.state != Approved ==> DenyMessage(o.result) == DenyMessage(o'.result)
    ensures Alike(cfg, Settled(c, i, h, response, o, replay, env), Settled(c', i, h, response, o', replay', env),
                  a, full)
  {
    NormAppend(c.log, SettledRecord(i, h, o, replay, env), full);
    NormAppend(c'.log, SettledRecord(i, h, o', replay', env), full);
  }

  lemma AnsweredAlike(cfg: Config, c: Cell, c': Cell, i: Intent, r: ControlResult, r': ControlResult, h: Hold,
                      source: Source, env: Env, a: Answer, full: bool)
    requires Alike(cfg, c, c', a, full) && c.done.None? && c.response.Some? && c'.entry == Some(Entry(r', h))
    requires Expected(cfg, r, h, a, full) && (source.Memory? ==> c.entry == Some(Entry(r, h)))
    ensures Alike(cfg, HeldPass(c, i, r, h, source, env), HeldPass(c', i, r', h, Memory, env), a, full)
  {
    var response := c.response.value;
    var g := Governing(h, response);
    ExpectedCompare(cfg, r, r', h, a, full);
    ResolveCompared(g, response, r, r', c.now, full);
    NormAppend(c.log, PendingRecord(i, r, h, true), full);
    var o, o' := Resolve(g, response, r, c.now), Resolve(g, response, r', c.now);
    if o.Some? {
      var c1 := if source.Memory? then c
                else Logged(c.(entry := Some(Entry(r, h))), PendingRecord(i, r, h, true));
      SettledAlike(cfg, c1.(entry := None), c'.(entry := None), i, h, response, o.value, o'.value,
                   !source.Memory?, false, env, a, full);
    }
  }

  /** A held call: found in memory or read back from the checkpoint, it fares the same. */
  lemma HeldAlike(cfg: Config, c: Cell, c': Cell, i: Intent, r: ControlResult, r': ControlResult, h: Hold,
                  source: Source, env: Env, a: Answer, full: bool)
    requires Alike(cfg, c, c', a, full) && c.done.None? && c'.entry == Some(Entry(r', h))
    requires Expected(cfg, r, h, a, full) && !source.Nowhere? && (source.Memory? ==> c.entry == Some(Entry(r, h)))
    ensures Alike(cfg, HeldPass(c, i, r, h, source, env), HeldPass(c', i, r', h, Memory, env), a, full)
  {
    if c.response.Some? {
      AnsweredAlike(cfg, c, c', i, r, r', h, source, env, a, full);
    }
  }

  lemma DirectAlike(cfg: Config, c: Cell, c': Cell, i: Intent, r: ControlResult, env: Env, a: Answer, full: bool)
    requires Alike(cfg, c, c', a, full) && c.done.None? && c'.entry.None?
    ensures Alike(cfg, DirectPass(c, i, r, env), DirectPass(c', i, r, env), a, full)
  {
    NormAppend(c.log, DecisionRecord(i, r, None, None, false), full);
    NormAppend(c'.log, DecisionRecord(i, r, None, None, false), full);
    NormAppend(c.log, ExecutionRecord(i, r, None, None, false, env.failure), full);
    NormAppend(c'.log, ExecutionRecord(i, r, None, None, false, env.failure), full);
  }

  lemma OpenedAlike(cfg: Config, c: Cell, c': Cell, i: Intent, r: ControlResult, h: Hold, env: Env, a: Answer,
                    full: bool)
    requires Alike(cfg, c, c', a, full) && c.done.None? && c'.entry.None? && Expected(cfg, r, h, a, full)
    ensures Alike(cfg, HeldPass(c, i, r, h, Nowhere, env), HeldPass(c', i, r, h, Nowhere, env), a, full)
  {
    NormAppend(c.log, PendingRecord(i, r, h, false), full);
    NormAppend(c'.log, PendingRecord(i, r, h, false), full);
  }

  /** A call not held yet: both runs ask policy and act on the same answer. */
  lemma UnheldAlike(cfg: Config, c: Cell, c': Cell, i: Intent, env: Env, a: Answer, full: bool)
    requires Alike(cfg, c, c', a, full) && c.done.None? && c'.entry.None?
    requires StepSteady(cfg, c, env, a, full)
    ensures Alike(cfg, CellPass(cfg, c, i, env), CellPass(cfg, c', i, env), a, full)
  {
    var answer := Authorized(cfg, env);
    var c1, c1' := c.(replies := c.replies + [env.reply]), c'.(replies := c'.replies + [env.reply]);
    if answer.Answered? && Enforceable(cfg, answer.result.verdict) {
      var r := answer.result;
      if r.verdict == Verdict.Review {
        ReviewExpected(cfg, env, r, a, full);
        OpenedAlike(cfg, c1, c1', i, r, BuildHold(i, r, cfg.fallback, c.now), env, a, full);
      } else {
        DirectAlike(cfg, c1, c1', i, r, env, a, full);
      }
    }
  }

  /** A held call that memory lost: the answer stands for the stored hold. */
  lemma AnswerExpected(cfg: Config, c: Cell, c': Cell, env: Env, a: Answer, full: bool)
    requires Alike(cfg, c, c', a, full) && c'.entry.Some? && StepSteady(cfg, c, env, a, full)
    ensures SlotHold(c.slot) == Some(c'.entry.value.hold)
    ensures Authorized(cfg, env).Answered?
    ensures Expected(cfg, Authorized(cfg, env).result, c'.entry.value.hold, a, full)
  {
    RoundTrip(c'.entry.value.hold);
    Classified(cfg.failMode, env.reply, Collected(env.gathered));
    ReviewExpected(cfg, env, Authorized(cfg, env).result, a, full);
  }

  lemma LostAlike(cfg: Config, c: Cell, c': Cell, i: Intent, env: Env, a: Answer, full: bool)
    requires Alike(cfg, c, c', a, full) && c.done.None? && c.entry.None? && c'.entry.Some?
    requires StepSteady(cfg, c, env, a, full)
    ensures Alike(cfg, CellPass(cfg, c, i, env), CellPass(cfg, c', i, env), a, full)
  {
    AnswerExpected(cfg, c, c', env, a, full);
    var e' := c'.entry.value;
    var c1 := c.(replies := c.replies + [env.reply]);
    HeldAlike(cfg, c1, c', i, Authorized(cfg, env).result, e'.result, e'.hold, Checkpoint, env, a, full);
  }

  lemma PassAlike(cfg: Config, c: Cell, c': Cell, i: Intent, env: Env, a: Answer, full: bool)
    requires Alike(cfg, c, c', a, full)
    requires c.done.None? && c.entry.None? ==> StepSteady(cfg, c, env, a, full)
    ensures Alike(cfg, CellPass(cfg, c, i, env), CellPass(cfg, c', i, env), a, full)
  {
    if c.done.None? {
      if c'.entry.None? {
        UnheldAlike(cfg, c, c', i, env, a, full);
      } else if c.entry.Some? {
        var e, e' := c.entry.value, c'.entry.value;
        HeldAlike(cfg, c, c', i, e.result, e'.result, e'.hold, Memory, env, a, full);
      } else {
        LostAlike(cfg, c, c', i, env, a, full);
      }
    }
  }

  lemma ApplyAlike(cfg: Config, c: Cell, c': Cell, e: Event, t: Task, a: Answer, full: bool)
    requires Alike(cfg, c, c', a, full) && !e.LoseMemory?
    requires Consults(c, e, t) ==> StepSteady(cfg, c, e.env, a, full)
    ensures Alike(cfg, CellApply(cfg, c, e, t), CellApply(cfg, c', e, t), a, full)
  {
    match e
    case Tick(_) =>
    case LoseMemory =>
    case Foreign(_, _) =>
    case Call(i, env) =>
      if Key(i) == t {
        PassAlike(cfg, c, c', i, env, a, full);
      }
    case Resume(i, response, env) =>
      if Key(i) == t && c.slot.Some? {
        PassAlike(cfg, c.(response := Some(response)), c'.(response := Some(response)), i, env, a, full);
      }
  }

  /** The k-th event, if it asks policy about t, may stand in for the answer the other run kept. */
  predicate SuppliedAt(cfg: Config, es: seq<Event>, k: nat, t: Task, a: Answer, full: bool)
    requires k < |es|
  {
    var c := CellRun(cfg, es[..k], t);
    Consults(c, es[k], t) ==> StepSteady(cfg, c, es[k].env, a, full)
  }

  predicate Supplied(cfg: Config, es: seq<Event>, t: Task, a: Answer, full: bool) {
    forall k {:trigger SuppliedAt(cfg, es, k, t, a, full)} ::
      0 <= k < |es| ==> SuppliedAt(cfg, es, k, t, a, full)
  }

  /** Induction over the prefixes of a run, for any property of them. */
  predicate Carries(P: nat -> bool, k: nat) {
    P(k) ==> P(k + 1)
  }

  lemma {:induction false} Climb(P: nat -> bool, n: nat)
    requires P(0) && forall k :: 0 <= k < n ==> Carries(P, k)
    ensures P(n)
  {
    if n > 0 {
      Climb(P, n - 1);
      assert Carries(P, n - 1);
    }
  }

  function CellsAlike(cfg: Config, es: seq<Event>, t: Task, a: Answer, full: bool): nat -> bool {
    (k: nat) => k <= |es| ==> Alike(cfg, CellRun(cfg, es[..k], t), CellRun(cfg, Without(es[..k]), t), a, full)
  }

  lemma EventAlike(cfg: Config, es: seq<Event>, n: nat, t: Task, a: Answer, full: bool)
    requires n < |es| && SuppliedAt(cfg, es, n, t, a, full)
    ensures Carries(CellsAlike(cfg, es, t, a, full), n)
  {
    var init, e := es[..n], es[n];
    assert es[..n + 1][..n] == init;
    if Alike(cfg, CellRun(cfg, init, t), CellRun(cfg, Without(init), t), a, full) && !e.LoseMemory? {
      assert Without(es[..n + 1])[..|Without(es[..n + 1])| - 1] == Without(init);
      ApplyAlike(cfg, CellRun(cfg, init, t), CellRun(cfg, Without(init), t), e, t, a, full);
    }
  }

  lemma RunAlike(cfg: Config, es: seq<Event>, n: nat, t: Task, a: Answer, full: bool)
    requires n <= |es| && Supplied(cfg, es, t, a, full)
    ensures CellsAlike(cfg, es, t, a, full)(n)
  {
    forall k | 0 <= k < n ensures Carries(CellsAlike(cfg, es, t, a, full), k) {
      assert SuppliedAt(cfg, es, k, t, a, full);
      EventAlike(cfg, es, k, t, a, full);
    }
    Climb(CellsAlike(cfg, es, t, a, full), n);
  }

  // ---------------------------------------------------------------- main results

  lemma {:induction false} WithoutGood(es: seq<Event>, t: Task)
    requires Good(es, t)
    ensures Good(Without(es), t) && NoLoss(Without(es))
  {
    if es != [] {
      WithoutGood(es[..|es| - 1], t);
      assert GoodEvent(es[|es| - 1], t);
    }
  }

  lemma SomeAnswer(cfg: Config, es: seq<Event>, t: Task) returns (a: Answer)
    requires Pure(cfg, es, t)
    ensures forall k {:trigger Asks(cfg, es, t, k)} ::
              0 <= k < |es| && Asks(cfg, es, t, k) ==> SameAnswer(Authorized(cfg, es[k].env), a)
  {
    a := Raised;
    if k :| 0 <= k < |es| && Asks(cfg, es, t, k) {
      a := Authorized(cfg, es[k].env);
    }
  }

  lemma AskSteady(cfg: Config, es: seq<Event>, k: nat, t: Task, a: Answer, full: bool)
    requires Good(es, t) && Recoverable(cfg, es, t) && (!full ==> SameRule(cfg, es, t))
    requires k < |es| && Consults(CellRun(cfg, es[..k], t), es[k], t)
    requires full ==> SameAnswer(Authorized(cfg, es[k].env), a)
    ensures StepSteady(cfg, CellRun(cfg, es[..k], t), es[k].env, a, full)
  {
    var c := CellRun(cfg, es[..k], t);
    PrefixLocal(cfg, es, t, k);
    assert Stored(Run(cfg, es[..k]).board, t) == c.slot;
    if c.slot.Some? {
      assert AsksAgain(cfg, es, t, k);
    }
  }

  /** A run meets the simulation's hypotheses if the runs' do. */
  lemma RunSteady(cfg: Config, es: seq<Event>, t: Task, a: Answer, full: bool)
    requires Good(es, t) && Recoverable(cfg, es, t) && (!full ==> SameRule(cfg, es, t))
    requires full ==> forall k {:trigger Asks(cfg, es, t, k)} ::
               0 <= k < |es| && Asks(cfg, es, t, k) ==> SameAnswer(Authorized(cfg, es[k].env), a)
    ensures Supplied(cfg, es, t, a, full)
  {
    forall k | 0 <= k < |es| ensures SuppliedAt(cfg, es, k, t, a, full) {
      if Consults(CellRun(cfg, es[..k], t), es[k], t) {
        PrefixLocal(cfg, es, t, k);
        assert Asks(cfg, es, t, k);
        AskSteady(cfg, es, k, t, a, full);
      }
    }
  }

  lemma CallUnchanged(cfg: Config, es: seq<Event>, n: nat, t: Task, full: bool) returns (a: Answer)
    requires Good(es, t) && n <= |es| && Recoverable(cfg, es, t)
    requires if full then Pure(cfg, es, t) else SameRule(cfg, es, t)
    ensures Alike(cfg, View(Run(cfg, es[..n]), t), View(Run(cfg, Without(es[..n])), t), a, full)
  {
    a := Raised;
    if full {
      a := SomeAnswer(cfg, es, t);
    }
    RunSteady(cfg, es, t, a, full);
    RunAlike(cfg, es, n, t, a, full);
    GoodPrefix(es, t, n);
    WithoutGood(es[..n], t);
    RunLocal(cfg, es[..n], t);
    RunLocal(cfg, Without(es[..n]), t);
  }

  /** Memory-loss transparency, call by call. If every pass that has to ask about a held call again
      can read the state and gets a review under the stored hold's rule, taking every loss of
      memory out of the run changes nothing of the call's completion (verdict, cause, moment,
      deadline, message to the agent), stored hold or executions, nor the verdicts, rules, states,
      deadlines and error types on its records. */
  lemma LossChangesNoCall(cfg: Config, es: seq<Event>, t: Task)
    requires Good(es, t) && Recoverable(cfg, es, t) && SameRule(cfg, es, t)
    ensures var s, s' := Run(cfg, es), Run(cfg, Without(es));
            && s.now == s'.now
            && Look(s.done, t) == Look(s'.done, t)
            && Stored(s.board, t) == Stored(s'.board, t)
            && Of(s.execs, t) == Of(s'.execs, t)
            && Norm(Of(s.log, t), false) == Norm(Of(s'.log, t), false)
  {
    var a := CallUnchanged(cfg, es, |es|, t, false);
    assert es[..|es|] == es;
  }

  // The order of records between calls is the same too.

  function Items(xs: seq<Tagged<Record>>): seq<Record> {
    seq(|xs|, k requires 0 <= k < |xs| => xs[k].item)
  }

  function Tag(t: Task, recs: seq<Record>): seq<Tagged<Record>> {
    seq(|recs|, k requires 0 <= k < |recs| => Tagged(t, recs[k]))
  }

  lemma {:induction false} OfAdded(log: seq<Tagged<Record>>, d: seq<Tagged<Record>>, t: Task)
    requires forall k :: 0 <= k < |d| ==> d[k].task == t
    ensures Of(log + d, t) == Of(log, t) + Items(d)
  {
    if d == [] {
      assert log + d == log;
    } else {
      var init, last := d[..|d| - 1], d[|d| - 1];
      OfAdded(log, init, t);
      assert log + d == (log + init) + [last];
      OfAppend(log + init, last, t);
      assert Items(d) == Items(init) + [last.item];
    }
  }

  lemma {:induction false} NormConcat(a: seq<Record>, b: seq<Record>)
    ensures Norm(a + b, true) == Norm(a, true) + Norm(b, true)
  {
    if b == [] {
      assert a + b == a;
    } else {
      assert (a + b)[..|a + b| - 1] == a + b[..|b| - 1];
      NormConcat(a, b[..|b| - 1]);
    }
  }

  lemma AppendedOf(log: seq<Tagged<Record>>, d: seq<Tagged<Record>>, t: Task)
    requires forall k :: 0 <= k < |d| ==> d[k].task == t
    ensures Norm(Of(log + d, t), true) == Norm(Of(log, t), true) + Norm(Items(d), true)
  {
    OfAdded(log, d, t);
    NormConcat(Of(log, t), Items(d));
  }

  lemma {:induction false} AppendedAll(log: seq<Tagged<Record>>, d: seq<Tagged<Record>>, t: Task)
    requires forall k :: 0 <= k < |d| ==> d[k].task == t
    ensures NormAll(log + d) == NormAll(log) + Tag(t, Norm(Items(d), true))
  {
    if d == [] {
      assert log + d == log;
    } else {
      var init, last := d[..|d| - 1], d[|d| - 1];
      AppendedAll(log, init, t);
      assert (log + d)[..|log + d| - 1] == log + init;
      assert Items(d) == Items(init) + [last.item];
      NormAppend(Items(init), last.item, true);
      if !IsReplay(last.item) {
        assert Tag(t, Norm(Items(d), true)) == Tag(t, Norm(Items(init), true)) + [Tagged(t, Unmarked(last.item, true))];
      }
    }
  }

  lemma AddedAlike(log: seq<Tagged<Record>>, log': seq<Tagged<Record>>,
                   d: seq<Tagged<Record>>, d': seq<Tagged<Record>>, t: Task)
    requires forall k :: 0 <= k < |d| ==> d[k].task == t
    requires forall k :: 0 <= k < |d'| ==> d'[k].task == t
    requires NormAll(log) == NormAll(log')
    requires Norm(Of(log, t), true) == Norm(Of(log', t), true)
    requires Norm(Of(log + d, t), true) == Norm(Of(log' + d', t), true)
    ensures NormAll(log + d) == NormAll(log' + d')
  {
    AppendedOf(log, d, t);
    AppendedOf(log', d', t);
    AppendedAll(log, d, t);
    AppendedAll(log', d', t);
    var a, b, b' := Norm(Of(log, t), true), Norm(Items(d), true), Norm(Items(d'), true);
    assert b == (a + b)[|a|..] && b' == (a + b')[|a|..];
  }

  /** A log that grew by t's items alone, compared before and after. */
  lemma GrownAlike(before: seq<Tagged<Record>>, before': seq<Tagged<Record>>,
                   after: seq<Tagged<Record>>, after': seq<Tagged<Record>>, t: Task)
    requires Adds(before, after, t) && Adds(before', after', t)
    requires NormAll(before) == NormAll(before')
    requires Norm(Of(before, t), true) == Norm(Of(before', t), true)
    requires Norm(Of(after, t), true) == Norm(Of(after', t), true)
    ensures NormAll(after) == NormAll(after')
  {
    var d, d' := after[|before|..], after'[|before'|..];
    assert after == before + d && after' == before' + d';
    AddedAlike(before, before', d, d', t);
  }

  /** The call the k-th event is about, if any, is well formed, recoverable and purely judged. */
  predicate PureCall(cfg: Config, es: seq<Event>, k: nat)
    requires k < |es|
  {
    es[k].Call? || es[k].Resume? ==>
      var t := Key(es[k].intent); Good(es, t) && Recoverable(cfg, es, t) && Pure(cfg, es, t)
  }

  predicate AllPure(cfg: Config, es: seq<Event>) {
    forall k {:trigger PureCall(cfg, es, k)} :: 0 <= k < |es| ==> PureCall(cfg, es, k)
  }

  lemma CallLogAlike(cfg: Config, es: seq<Event>, n: nat, t: Task)
    requires Good(es, t) && n <= |es| && Recoverable(cfg, es, t) && Pure(cfg, es, t)
    ensures Norm(Of(Run(cfg, es[..n]).log, t), true) == Norm(Of(Run(cfg, Without(es[..n])).log, t), true)
  {
    var a := CallUnchanged(cfg, es, n, t, true);
  }

  lemma StepLogs(cfg: Config, es: seq<Event>, n: nat)
    requires n < |es|
    ensures Run(cfg, es[..n + 1]) == Apply(cfg, Run(cfg, es[..n]), es[n])
    ensures Run(cfg, Without(es[..n + 1])) ==
            if es[n].LoseMemory? then Run(cfg, Without(es[..n])) else Apply(cfg, Run(cfg, Without(es[..n])), es[n])
  {
    assert es[..n + 1][..n] == es[..n];
    if !es[n].LoseMemory? {
      assert Without(es[..n + 1])[..|Without(es[..n + 1])| - 1] == Without(es[..n]);
    }
  }

  lemma EventLogAlike(cfg: Config, es: seq<Event>, n: nat, s: Sys, s': Sys, t: Task)
    requires n < |es| && About(es[n], t)
    requires Good(es, t) && Recoverable(cfg, es, t) && Pure(cfg, es, t)
    requires s == Run(cfg, es[..n]) && s' == Run(cfg, Without(es[..n])) && NormAll(s.log) == NormAll(s'.log)
    ensures NormAll(Apply(cfg, s, es[n]).log) == NormAll(Apply(cfg, s', es[n]).log)
  {
    CallLogAlike(cfg, es, n, t);
    CallLogAlike(cfg, es, n + 1, t);
    StepLogs(cfg, es, n);
    EventGrows(cfg, s, es[n]);
    EventGrows(cfg, s', es[n]);
    GrownAlike(s.log, s'.log, Apply(cfg, s, es[n]).log, Apply(cfg, s', es[n]).log, t);
  }

  lemma PassLogAlike(cfg: Config, es: seq<Event>, n: nat, s: Sys, s': Sys)
    requires AllPure(cfg, es) && n < |es| && (es[n].Call? || es[n].Resume?)
    requires s == Run(cfg, es[..n]) && s' == Run(cfg, Without(es[..n])) && NormAll(s.log) == NormAll(s'.log)
    ensures NormAll(Apply(cfg, s, es[n]).log) == NormAll(Apply(cfg, s', es[n]).log)
  {
    assert PureCall(cfg, es, n);
    EventLogAlike(cfg, es, n, s, s', Key(es[n].intent));
  }

  lemma OtherLogAlike(cfg: Config, s: Sys, s': Sys, e: Event)
    requires !e.Call? && !e.Resume? && NormAll(s.log) == NormAll(s'.log)
    ensures NormAll(Apply(cfg, s, e).log) == NormAll(Apply(cfg, s', e).log)
    ensures NormAll(Apply(cfg, s, e).log) == NormAll(s'.log)
  {
  }

  /** The logs of the first k events, with and without losses, compare equal. */
  function LogsAlike(cfg: Config, es: seq<Event>): nat -> bool {
    (k: nat) => k <= |es| ==> NormAll(Run(cfg, es[..k]).log) == NormAll(Run(cfg, Without(es[..k])).log)
  }

  lemma StepAlike(cfg: Config, es: seq<Event>, n: nat)
    requires AllPure(cfg, es) && n < |es|
    ensures Carries(LogsAlike(cfg, es), n)
  {
    var s, s' := Run(cfg, es[..n]), Run(cfg, Without(es[..n]));
    if NormAll(s.log) == NormAll(s'.log) {
      StepLogs(cfg, es, n);
      if es[n].Call? || es[n].Resume? {
        PassLogAlike(cfg, es, n, s, s');
      } else {
        OtherLogAlike(cfg, s, s', es[n]);
      }
    }
  }

  lemma PrefixLogAlike(cfg: Config, es: seq<Event>, n: nat)
    requires AllPure(cfg, es) && n <= |es|
    ensures LogsAlike(cfg, es)(n)
  {
    forall k | 0 <= k < n ensures Carries(LogsAlike(cfg, es), k) {
      StepAlike(cfg, es, k);
    }
    Climb(LogsAlike(cfg, es), n);
  }

  /** Memory-loss transparency for the whole log: if every pass that has to ask again can read the
      state and policy is pure, then without replayed pending records and replay marks the record
      log is the one of the run without losses, record for record, in order. */
  lemma LossChangesNoLog(cfg: Config, es: seq<Event>)
    requires AllPure(cfg, es)
    ensures NormAll(Run(cfg, es).log) == NormAll(Run(cfg, Without(es)).log)
  {
    PrefixLogAlike(cfg, es, |es|);
    assert es[..|es|] == es;
  }
}
