/** The watchdog: sweeps that answer expired holds with a sentinel, and the bound they put on
    how long a hold can stay open (agentcontrol/core/control_plane.py). */
module Watchdog {
  import opened Text
  import opened Json
  import opened Domain
  import opened Review
  import opened Protocol
  import opened Cells
  import opened Locality
  import opened Histories

  /** Where the host delivers a resume of a thread. A thread missing here is a resume that failed. */
  type Route = map<string, Intent>

  /** One turn of the loop: time that went by, the hold looked at, and what a resume then meets. */
  datatype Visit = Visit(wait: nat, id: string, route: Route, env: Env)

  predicate IsExpired(h: Hold, now: int) {
    FromIso(h.deadline).Some? && Expired(h, now)
  }

  /** The response delivered on one visit of a sweep over the snapshot, if any. */
  function Wake(snapshot: map<string, Entry>, now: int, v: Visit): Option<Intent> {
    if v.id in snapshot && IsExpired(snapshot[v.id].hold, now) && ThreadOf(v.id) in v.route
    then Some(v.route[ThreadOf(v.id)])
    else None
  }

  function VisitStep(cfg: Config, s: Sys, snapshot: map<string, Entry>, v: Visit): Sys {
    var s1 := Apply(cfg, s, Tick(v.wait));
    match Wake(snapshot, s1.now, v)
    case None => s1
    case Some(i) => Apply(cfg, s1, Resume(i, JStr(SENTINEL), v.env))
  }

  /** A sweep over a snapshot of the pending holds. */
  function Sweep(cfg: Config, s: Sys, snapshot: map<string, Entry>, visits: seq<Visit>): Sys {
    if visits == [] then s
    else
      VisitStep(cfg, Sweep(cfg, s, snapshot, visits[..|visits| - 1]),
                snapshot, visits[|visits| - 1])
  }

  // ---------------------------------------------------------------- a sweep is a run

  predicate GoodVisits(visits: seq<Visit>) {
    forall k :: 0 <= k < |visits| ==> GoodRoute(visits[k].route)
  }

  predicate GoodRoute(route: Route) {
    forall th :: th in route ==> WellFormed(route[th])
  }

  /** es' goes on from es within the same hypotheses. */
  ghost predicate GoesOn(es: seq<Event>, es': seq<Event>, readable: bool) {
    && (forall t :: Good(es, t) ==> Good(es', t)) && (NoLoss(es) ==> NoLoss(es'))
    && (Readable(es) && readable ==> Readable(es'))
  }

  predicate ReadableVisits(visits: seq<Visit>) {
    forall k :: 0 <= k < |visits| ==> visits[k].env.stateReadable
  }

  lemma TickGoesOn(es: seq<Event>, es': seq<Event>, n: nat, readable: bool)
    requires GoesOn(es, es', readable)
    ensures GoesOn(es, es' + [Tick(n)], readable)
  {
  }

  lemma ResumeGoesOn(es: seq<Event>, es': seq<Event>, i: Intent, env: Env, readable: bool)
    requires GoesOn(es, es', readable) && WellFormed(i)
    ensures GoesOn(es, es' + [Resume(i, JStr(SENTINEL), env)], readable && env.stateReadable)
  {
  }

  /** Whatever a sweep does, ticks and responses could have done: every result about runs
      covers runs with sweeps. */
  lemma {:induction false} SweepIsRun(cfg: Config, es: seq<Event>, snapshot: map<string, Entry>, visits: seq<Visit>)
    returns (es': seq<Event>)
    requires GoodVisits(visits)
    ensures es <= es' && GoesOn(es, es', ReadableVisits(visits))
    ensures Run(cfg, es') == Sweep(cfg, Run(cfg, es), snapshot, visits)
  {
    if visits == [] {
      es' := es;
    } else {
      var init, v := visits[..|visits| - 1], visits[|visits| - 1];
      var before := SweepIsRun(cfg, es, snapshot, init);
      es' := before + [Tick(v.wait)];
      RunStep(cfg, before, Tick(v.wait));
      TickGoesOn(es, before, v.wait, ReadableVisits(init));
      var woken := Wake(snapshot, Run(cfg, es').now, v);
      if woken.Some? {
        var resume := Resume(woken.value, JStr(SENTINEL), v.env);
        RunStep(cfg, es', resume);
        ResumeGoesOn(es, es', woken.value, v.env, ReadableVisits(init));
        es' := es' + [resume];
      }
    }
  }

  // ---------------------------------------------------------------- the sentinel

  lemma SentinelNeverApproves()
    ensures !Approves(JStr(SENTINEL)) && FromPayload(JStr(SENTINEL)).None?
  {
    SentinelSpellsNothing();
  }

  lemma SentinelHeld(c: Cell, i: Intent, r: ControlResult, h: Hold, source: Source, env: Env)
    requires c.response == Some(JStr(SENTINEL))
    ensures HeldPass(c, i, r, h, source, env).execs == c.execs
  {
    SentinelNeverApproves();
    ResolveExact(h, JStr(SENTINEL), r, c.now);
  }

  /** The executions the sentinel adds: none through a review. */
  predicate NoApproval(execs: seq<Exec>, execs': seq<Exec>) {
    execs <= execs' && forall k :: |execs| <= k < |execs'| ==> execs'[k].via.Direct?
  }

  lemma SentinelPass(cfg: Config, c: Cell, i: Intent, env: Env)
    requires c.response == Some(JStr(SENTINEL))
    ensures NoApproval(c.execs, CellPass(cfg, c, i, env).execs)
    ensures c.entry.Some? ==> CellPass(cfg, c, i, env).execs == c.execs
  {
    match CellTurn(cfg, c, i, env)
    case Reviewing(c1, r, h, source) => SentinelHeld(c1, i, r, h, source, env);
    case _ =>
  }

  /** The state is sound, and no other code poses as t's hold. */
  predicate Separable(s: Sys, t: Task) {
    Sound(s) && ColonFree(t) && Apart(s.board, t)
  }

  lemma VisitApproves(cfg: Config, s: Sys, snapshot: map<string, Entry>, v: Visit, t: Task)
    requires Separable(s, t) && GoodRoute(v.route)
    ensures Separable(VisitStep(cfg, s, snapshot, v), t)
    ensures NoApproval(Of(s.execs, t), Of(VisitStep(cfg, s, snapshot, v).execs, t))
  {
    var s1 := Apply(cfg, s, Tick(v.wait));
    var woken := Wake(snapshot, s1.now, v);
    if woken.Some? {
      var c := View(s1, t);
      EventLocal(cfg, s1, Resume(woken.value, JStr(SENTINEL), v.env), t);
      if Key(woken.value) == t && c.slot.Some? {
        SentinelPass(cfg, c.(response := Some(JStr(SENTINEL))), woken.value, v.env);
      }
    }
  }

  /** A sweep never produces an approval: wherever the host delivers each of its sentinels, to an
      expired hold or not, and whatever each resumed pass then meets. */
  lemma {:induction false} SweepNeverApproves(cfg: Config, s: Sys, snapshot: map<string, Entry>, visits: seq<Visit>,
                                              t: Task)
    requires Separable(s, t) && GoodVisits(visits)
    ensures Separable(Sweep(cfg, s, snapshot, visits), t)
    ensures NoApproval(Of(s.execs, t), Of(Sweep(cfg, s, snapshot, visits).execs, t))
  {
    if visits != [] {
      var init := visits[..|visits| - 1];
      SweepNeverApproves(cfg, s, snapshot, init, t);
      VisitApproves(cfg, Sweep(cfg, s, snapshot, init), snapshot, visits[|visits| - 1], t);
    }
  }

  // ---------------------------------------------------------------- draining

  /** At most one tracked hold per thread, and a resume of the thread reaches it. */
  ghost predicate RouteFits(pending: map<string, Entry>, route: Route) {
    forall t :: ColonFree(t) && IdOf(t) in pending ==> t.thread in route && Key(route[t.thread]) == t
  }

  /** Every visit can deliver, to the thread's tracked hold. */
  ghost predicate Delivers(pending: map<string, Entry>, visits: seq<Visit>) {
    forall k :: 0 <= k < |visits| ==> GoodRoute(visits[k].route) && RouteFits(pending, visits[k].route)
  }

  /** Every key is the hold id of a separable call. */
  ghost predicate Filed(pending: map<string, Entry>) {
    forall id :: id in pending ==> exists t :: ColonFree(t) && IdOf(t) == id
  }

  predicate TimedOutNow(c: Cell) {
    c.done.Some? && c.done.value.ending == DeniedByTimeout && c.entry.None? && c.slot.None?
  }

  /** Either nothing but time happened to the call, or its expired hold timed out. */
  predicate Swept(c0: Cell, c: Cell, h: Hold) {
    && c0.now <= c.now && c.execs == c0.execs
    && (c == c0.(now := c.now) || (TimedOutNow(c) && IsExpired(h, c.now)))
  }

  lemma DrainCell(cfg: Config, c: Cell, i: Intent, env: Env)
    requires c.done.None? && c.entry.Some? && IsExpired(c.entry.value.hold, c.now)
    ensures var c' := CellPass(cfg, c.(response := Some(JStr(SENTINEL))), i, env);
            TimedOutNow(c') && c'.execs == c.execs && c'.now == c.now
  {
    SentinelNeverApproves();
    ResolveExact(c.entry.value.hold, JStr(SENTINEL), c.entry.value.result, c.now);
  }

  /** Splitting the key of a tracked hold gives its thread, and so its own call. */
  lemma WakesOwner(pending: map<string, Entry>, now: int, v: Visit) returns (t: Task)
    requires Filed(pending) && RouteFits(pending, v.route) && v.id in pending
    ensures ColonFree(t) && IdOf(t) == v.id && ThreadOf(v.id) == t.thread
    ensures Wake(pending, now, v) == if IsExpired(pending[v.id].hold, now) then Some(v.route[t.thread]) else None
    ensures Key(v.route[t.thread]) == t
  {
    t :| ColonFree(t) && IdOf(t) == v.id;
    ThreadOfId(t);
  }

  /** One resume of an expired tracked hold, seen from a tracked call. */
  lemma ResumeSweeps(cfg: Config, s: Sys, i: Intent, env: Env, t: Task, c0: Cell, h: Hold)
    requires Separable(s, t) && WellFormed(i)
    requires c0.entry.Some? && c0.entry.value.hold == h && c0.done.None? && c0.slot.Some?
    requires Swept(c0, View(s, t), h) && (Key(i) == t ==> IsExpired(h, s.now))
    ensures var s' := Apply(cfg, s, Resume(i, JStr(SENTINEL), env));
            && Separable(s', t) && Swept(c0, View(s', t), h)
            && (Key(i) == t || TimedOutNow(View(s, t)) ==> TimedOutNow(View(s', t)))
  {
    EventLocal(cfg, s, Resume(i, JStr(SENTINEL), env), t);
    if Key(i) == t && View(s, t).slot.Some? {
      DrainCell(cfg, View(s, t), i, env);
    }
  }

  /** One visit, seen from a tracked call. */
  lemma VisitSweeps(cfg: Config, s: Sys, pending: map<string, Entry>, v: Visit, t: Task, c0: Cell)
    requires Separable(s, t) && GoodRoute(v.route) && Filed(pending) && RouteFits(pending, v.route)
    requires IdOf(t) in pending && c0.entry == Some(pending[IdOf(t)]) && c0.done.None? && c0.slot.Some?
    requires Swept(c0, View(s, t), pending[IdOf(t)].hold)
    ensures var s' := VisitStep(cfg, s, pending, v);
            && Separable(s', t) && Swept(c0, View(s', t), pending[IdOf(t)].hold)
            && (v.id == IdOf(t) && IsExpired(pending[IdOf(t)].hold, s.now) ==> TimedOutNow(View(s', t)))
            && (TimedOutNow(View(s, t)) ==> TimedOutNow(View(s', t)))
  {
    var s1 := Apply(cfg, s, Tick(v.wait));
    if v.id in pending {
      var u := WakesOwner(pending, s1.now, v);
      IdOfInjective(u, t);
      if IsExpired(pending[v.id].hold, s1.now) {
        ResumeSweeps(cfg, s1, v.route[u.thread], v.env, t, c0, pending[IdOf(t)].hold);
      }
    }
  }

  predicate Looked(visits: seq<Visit>, id: string) {
    visits != [] && (visits[|visits| - 1].id == id || Looked(visits[..|visits| - 1], id))
  }

  lemma {:induction false} SweepSweeps(cfg: Config, s: Sys, pending: map<string, Entry>, visits: seq<Visit>, t: Task)
    requires Separable(s, t) && Filed(pending) && Delivers(pending, visits)
    requires IdOf(t) in pending && View(s, t).entry == Some(pending[IdOf(t)])
    requires View(s, t).done.None? && View(s, t).slot.Some?
    ensures var s', h := Sweep(cfg, s, pending, visits), pending[IdOf(t)].hold;
            && Separable(s', t) && Swept(View(s, t), View(s', t), h)
            && (Looked(visits, IdOf(t)) && IsExpired(h, s.now) ==> TimedOutNow(View(s', t)))
  {
    if visits != [] {
      var init := visits[..|visits| - 1];
      SweepSweeps(cfg, s, pending, init, t);
      VisitSweeps(cfg, Sweep(cfg, s, pending, init), pending, visits[|visits| - 1], t, View(s, t));
    }
  }

  /** One visit leaves a call that is not tracked alone. */
  lemma VisitSpares(cfg: Config, s: Sys, pending: map<string, Entry>, v: Visit, t: Task)
    requires Separable(s, t) && GoodRoute(v.route) && Filed(pending) && RouteFits(pending, v.route)
    requires IdOf(t) !in pending
    ensures var s' := VisitStep(cfg, s, pending, v);
            Separable(s', t) && View(s', t) == View(s, t).(now := s'.now)
  {
    var s1 := Apply(cfg, s, Tick(v.wait));
    if v.id in pending {
      var u := WakesOwner(pending, s1.now, v);
      if IsExpired(pending[v.id].hold, s1.now) {
        EventLocal(cfg, s1, Resume(v.route[u.thread], JStr(SENTINEL), v.env), t);
      }
    }
  }

  lemma {:induction false} SweepSpares(cfg: Config, s: Sys, pending: map<string, Entry>, visits: seq<Visit>, t: Task)
    requires Separable(s, t) && Filed(pending) && Delivers(pending, visits) && IdOf(t) !in pending
    ensures var s' := Sweep(cfg, s, pending, visits);
            Separable(s', t) && View(s', t) == View(s, t).(now := s'.now)
  {
    if visits != [] {
      var init := visits[..|visits| - 1];
      SweepSpares(cfg, s, pending, init, t);
      VisitSpares(cfg, Sweep(cfg, s, pending, init), pending, visits[|visits| - 1], t);
    }
  }

  lemma RunFiled(cfg: Config, es: seq<Event>, t: Task)
    requires Good(es, t)
    ensures Filed(Run(cfg, es).pending)
  {
    forall id | id in Run(cfg, es).pending
      ensures exists u :: ColonFree(u) && IdOf(u) == id
    {
      var i := PendingKeys(cfg, es, t, id);
      assert ColonFree(Key(i)) && IdOf(Key(i)) == id;
    }
  }

  predicate SameButTime(s: Sys, s': Sys, t: Task) {
    View(s', t) == View(s, t).(now := s'.now)
  }

  /** Watchdog drain. In any reachable state, with at most one tracked hold per thread and a host
      that delivers each resume, a sweep that looks at every tracked hold ends every call whose
      hold was expired when it began as timed out, without running the tool; a call whose hold
      is still open when it ends, or that was not tracked, it leaves as it was. */
  lemma Drains(cfg: Config, es: seq<Event>, visits: seq<Visit>, t: Task)
    requires Good(es, t) && Delivers(Run(cfg, es).pending, visits)
    requires forall id :: id in Run(cfg, es).pending ==> Looked(visits, id)
    ensures var s := Run(cfg, es); var s' := Sweep(cfg, s, s.pending, visits);
            if IdOf(t) !in s.pending then SameButTime(s, s', t)
            else
              var h := s.pending[IdOf(t)].hold;
              && (IsExpired(h, s.now) ==>
                    && t in s'.done && s'.done[t].ending == DeniedByTimeout
                    && IdOf(t) !in s'.pending && Stored(s'.board, t).None? && Of(s'.execs, t) == [])
              && (!IsExpired(h, s'.now) ==> SameButTime(s, s', t))
  {
    var s := Run(cfg, es);
    RunLocal(cfg, es, t);
    RunKeeps(cfg, es, t);
    RunFiled(cfg, es, t);
    if IdOf(t) in s.pending {
      SweepSweeps(cfg, s, s.pending, visits, t);
      TimedOutSys(Sweep(cfg, s, s.pending, visits), t);
    } else {
      SweepSpares(cfg, s, s.pending, visits, t);
    }
  }

  lemma TimedOutSys(s: Sys, t: Task)
    ensures TimedOutNow(View(s, t)) ==>
              t in s.done && s.done[t].ending == DeniedByTimeout && IdOf(t) !in s.pending && Stored(s.board, t).None?
  {
    assert Look(s.done, t) == View(s, t).done;
    assert Look(s.pending, IdOf(t)) == View(s, t).entry;
  }

  // ---------------------------------------------------------------- bounded liveness

  /** What a live process does: a step of the protocol, or a sweep over what it tracks. */
  datatype Deed = Does(e: Event) | Sweeps(visits: seq<Visit>)

  function DeedStep(cfg: Config, s: Sys, d: Deed): Sys {
    match d
    case Does(e) => Apply(cfg, s, e)
    case Sweeps(visits) => Sweep(cfg, s, s.pending, visits)
  }

  function Live(cfg: Config, deeds: seq<Deed>): Sys {
    if deeds == [] then INIT else DeedStep(cfg, Live(cfg, deeds[..|deeds| - 1]), deeds[|deeds| - 1])
  }

  /** A live process loses no memory; its sweeps look at everything, take no time, and their
      resumes arrive. */
  ghost predicate HealthyDeed(s: Sys, d: Deed, t: Task) {
    match d
    case Does(e) => GoodEvent(e, t) && !e.LoseMemory?
    case Sweeps(visits) =>
      && Delivers(s.pending, visits)
      && (forall id :: id in s.pending ==> Looked(visits, id))
      && (forall k :: 0 <= k < |visits| ==> visits[k].wait == 0)
  }

  ghost predicate Healthy(cfg: Config, deeds: seq<Deed>, t: Task) {
    ColonFree(t) && forall k :: 0 <= k < |deeds| ==> HealthyDeed(Live(cfg, deeds[..k]), deeds[k], t)
  }

  /** The state before the n-th deed. */
  function At(cfg: Config, deeds: seq<Deed>, n: nat): Sys
    requires n <= |deeds|
  {
    Live(cfg, deeds[..n])
  }

  /** One of the deeds from i to j is a sweep in the p seconds after x. */
  predicate SweptAfter(cfg: Config, deeds: seq<Deed>, i: nat, j: nat, x: int, p: nat)
    requires i <= j <= |deeds|
  {
    exists k :: i <= k < j && deeds[k].Sweeps? && x < At(cfg, deeds, k).now <= x + p
  }

  /** No stretch of p seconds that lies between the i-th and the j-th deed is without a sweep. */
  ghost predicate SweptEvery(cfg: Config, deeds: seq<Deed>, i: nat, j: nat, p: nat)
    requires i <= j <= |deeds|
  {
    forall x :: At(cfg, deeds, i).now <= x && x + p < At(cfg, deeds, j).now ==> SweptAfter(cfg, deeds, i, j, x, p)
  }

  lemma HealthyPrefix(cfg: Config, deeds: seq<Deed>, n: nat, t: Task)
    requires Healthy(cfg, deeds, t) && n <= |deeds|
    ensures Healthy(cfg, deeds[..n], t)
  {
    forall k | 0 <= k < n
      ensures HealthyDeed(Live(cfg, deeds[..n][..k]), deeds[..n][k], t)
    {
      assert deeds[..n][..k] == deeds[..k];
      assert HealthyDeed(Live(cfg, deeds[..k]), deeds[k], t);
    }
  }

  lemma DeedGoesOn(cfg: Config, es: seq<Event>, s: Sys, d: Deed, t: Task) returns (es': seq<Event>)
    requires Good(es, t) && NoLoss(es) && Run(cfg, es) == s && HealthyDeed(s, d, t)
    ensures es <= es' && Good(es', t) && NoLoss(es')
    ensures Run(cfg, es') == DeedStep(cfg, s, d)
  {
    if d.Does? {
      RunStep(cfg, es, d.e);
      es' := es + [d.e];
    } else {
      es' := SweepIsRun(cfg, es, s.pending, d.visits);
    }
  }

  /** A live history is a run without losses, and its beginning is a beginning of that run. */
  lemma {:induction false} LiveIsRun(cfg: Config, deeds: seq<Deed>, n: nat, t: Task)
    returns (es: seq<Event>, es': seq<Event>)
    requires Healthy(cfg, deeds, t) && n <= |deeds|
    ensures es <= es' && Good(es', t) && NoLoss(es')
    ensures Run(cfg, es) == At(cfg, deeds, n) && Run(cfg, es') == Live(cfg, deeds)
  {
    if deeds == [] {
      es, es' := [], [];
    } else {
      var last := |deeds| - 1;
      var init := deeds[..last];
      HealthyPrefix(cfg, deeds, last, t);
      var m := if n <= last then n else last;
      var b, b' := LiveIsRun(cfg, init, m, t);
      assert HealthyDeed(Live(cfg, deeds[..last]), deeds[last], t);
      es' := DeedGoesOn(cfg, b', Live(cfg, init), deeds[last], t);
      if n <= last {
        es := b;
        assert init[..m] == deeds[..n];
      } else {
        es := es';
        assert deeds[..n] == deeds;
      }
    }
  }

  lemma StaysTracked(cfg: Config, c: Cell, e: Event, t: Task)
    requires !e.LoseMemory?
    ensures c.done.Some? ==> CellApply(cfg, c, e, t).done == c.done
    ensures c.entry.Some? ==> CellApply(cfg, c, e, t).done.Some? || CellApply(cfg, c, e, t).entry == c.entry
  {
  }

  lemma {:induction false} RunStaysTracked(cfg: Config, es: seq<Event>, es': seq<Event>, t: Task)
    requires es <= es' && NoLoss(es')
    ensures var c, c' := CellRun(cfg, es, t), CellRun(cfg, es', t);
            && (c.done.Some? ==> c'.done == c.done)
            && (c.entry.Some? ==> c'.done.Some? || c'.entry == c.entry)
  {
    if |es| < |es'| {
      var init := es'[..|es'| - 1];
      RunStaysTracked(cfg, es, init, t);
      StaysTracked(cfg, CellRun(cfg, init, t), es'[|es'| - 1], t);
    } else {
      assert es == es';
    }
  }

  predicate TrackedOrOver(s: Sys, s': Sys, t: Task) {
    && (t in s.done ==> t in s'.done)
    && (IdOf(t) in s.pending ==>
          t in s'.done || (IdOf(t) in s'.pending && s'.pending[IdOf(t)] == s.pending[IdOf(t)]))
  }

  lemma ViewStaysTracked(s: Sys, s': Sys, t: Task)
    requires View(s, t).done.Some? ==> View(s', t).done == View(s, t).done
    requires View(s, t).entry.Some? ==> View(s', t).done.Some? || View(s', t).entry == View(s, t).entry
    ensures TrackedOrOver(s, s', t)
  {
    assert Look(s.done, t) == View(s, t).done && Look(s'.done, t) == View(s', t).done;
    assert Look(s.pending, IdOf(t)) == View(s, t).entry && Look(s'.pending, IdOf(t)) == View(s', t).entry;
  }

  /** Along a live history a tracked call keeps its entry until it is over, and stays over. */
  lemma LiveStaysTracked(cfg: Config, deeds: seq<Deed>, n: nat, m: nat, t: Task)
    requires Healthy(cfg, deeds, t) && n <= m <= |deeds|
    ensures TrackedOrOver(At(cfg, deeds, n), At(cfg, deeds, m), t)
  {
    HealthyPrefix(cfg, deeds, m, t);
    assert deeds[..m][..n] == deeds[..n];
    var es, es' := LiveIsRun(cfg, deeds[..m], n, t);
    RunLocal(cfg, es, t);
    RunLocal(cfg, es', t);
    RunStaysTracked(cfg, es, es', t);
    ViewStaysTracked(At(cfg, deeds, n), At(cfg, deeds, m), t);
  }

  lemma SweepEnds(cfg: Config, deeds: seq<Deed>, k: nat, t: Task)
    requires Healthy(cfg, deeds, t) && k < |deeds| && deeds[k].Sweeps?
    requires var s := At(cfg, deeds, k); IdOf(t) in s.pending && IsExpired(s.pending[IdOf(t)].hold, s.now)
    ensures t in At(cfg, deeds, k + 1).done
  {
    var d := deeds[k];
    HealthyPrefix(cfg, deeds, k, t);
    assert deeds[..k + 1][..k] == deeds[..k];
    assert HealthyDeed(Live(cfg, deeds[..k]), d, t);
    var es, es' := LiveIsRun(cfg, deeds[..k], k, t);
    Drains(cfg, es', d.visits, t);
  }

  lemma OverAfterSweep(cfg: Config, deeds: seq<Deed>, i: nat, k: nat, j: nat, t: Task)
    requires Healthy(cfg, deeds, t) && i <= k < j <= |deeds| && deeds[k].Sweeps?
    requires var s := At(cfg, deeds, i);
             IdOf(t) in s.pending && IsExpired(s.pending[IdOf(t)].hold, At(cfg, deeds, k).now)
    ensures t in At(cfg, deeds, j).done
  {
    LiveStaysTracked(cfg, deeds, i, k, t);
    if t in At(cfg, deeds, k).done {
      LiveStaysTracked(cfg, deeds, k, j, t);
    } else {
      SweepEnds(cfg, deeds, k, t);
      LiveStaysTracked(cfg, deeds, k + 1, j, t);
    }
  }

  /** The last moment from which a tracked hold may still have to wait for a sweep. */
  function Due(s: Sys, t: Task): int
    requires IdOf(t) in s.pending
  {
    var d := FromIso(s.pending[IdOf(t)].hold.deadline).GetOr(s.now);
    if d < s.now then s.now else d
  }

  lemma TrackedReadable(cfg: Config, deeds: seq<Deed>, i: nat, t: Task)
    requires Healthy(cfg, deeds, t) && i <= |deeds| && IdOf(t) in At(cfg, deeds, i).pending
    ensures FromIso(At(cfg, deeds, i).pending[IdOf(t)].hold.deadline).Some?
  {
    var es, es' := LiveIsRun(cfg, deeds, i, t);
    RunLocal(cfg, es, t);
    RunKeeps(cfg, es, t);
    assert Look(At(cfg, deeds, i).pending, IdOf(t)) == CellRun(cfg, es, t).entry;
  }

  /** Bounded liveness. In a live process whose sweeps are at most p apart and take no time, a
      tracked hold is resolved no later than p after its deadline (or after it came to be
      tracked, if that was later): once the clock is past that, the call is over. */
  lemma BoundedLiveness(cfg: Config, deeds: seq<Deed>, i: nat, j: nat, p: nat, t: Task)
    requires Healthy(cfg, deeds, t) && i <= j <= |deeds|
    requires SweptEvery(cfg, deeds, i, j, p)
    requires IdOf(t) in At(cfg, deeds, i).pending && At(cfg, deeds, j).now > Due(At(cfg, deeds, i), t) + p
    ensures t in At(cfg, deeds, j).done
  {
    TrackedReadable(cfg, deeds, i, t);
    var x := Due(At(cfg, deeds, i), t);
    assert SweptAfter(cfg, deeds, i, j, x, p);
    var k :| i <= k < j && deeds[k].Sweeps? && x < At(cfg, deeds, k).now <= x + p;
    OverAfterSweep(cfg, deeds, i, k, j, t);
  }
}
