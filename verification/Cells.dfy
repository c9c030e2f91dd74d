/** One call on its own: a reference semantics in which a call sees only its own memory,
    interrupt, response and records, and the proof that every run of the whole system looks
    like that to every call. */
module Cells {
  import opened Text
  import opened Json
  import opened Domain
  import opened Opa
  import opened Review
  import opened Telemetry
  import opened Protocol

  datatype Cell = Cell(
    now: int,
    entry: Option<Entry>,
    slot: Option<Json>,
    response: Option<Json>,
    done: Option<Done>,
    log: seq<Record>,
    execs: seq<Exec>,
    replies: seq<Transport>)

  // ---------------------------------------------------------------- reference semantics

  /** Where the hold of a pass came from. */
  datatype Source = Memory | Checkpoint | Nowhere

  function Logged(c: Cell, rec: Record): Cell {
    c.(log := c.log + [rec])
  }

  function Ended(c: Cell, d: Done): Cell {
    c.(slot := None, response := None, done := Some(d))
  }

  function HeldPass(c: Cell, i: Intent, r: ControlResult, h: Hold, source: Source, env: Env): Cell {
    var c1 := if source.Memory? then c else c.(entry := Some(Entry(r, h)));
    match c.response
    case None =>
      var c2 := c1.(slot := Some(ToPayload(h)));
      if source.Nowhere? then Logged(c2, PendingRecord(i, r, h, false)) else c2
    case Some(response) =>
      var c2 := if source.Memory? then c1 else Logged(c1, PendingRecord(i, r, h, true));
      Concluding(c2, i, r, h, response, !source.Memory?, env)
  }

  /** An answered review, once its hold is noted and its record replayed. */
  function Concluding(c: Cell, i: Intent, r: ControlResult, h: Hold, response: Json, replay: bool, env: Env): Cell {
    match Resolve(Governing(h, response), response, r, c.now)
    case None => c
    case Some(o) => Settled(c.(entry := None), i, h, response, o, replay, env)
  }

  /** The completion and the record a resolved review leaves. */
  function SettledDone(h: Hold, response: Json, o: Outcome, now: int): Done {
    Done(if o.state == Approved then None else Some(DenyMessage(o.result)), HeldEnding(o.state), now,
         Some(h.deadline), Some(response))
  }

  function SettledRecord(i: Intent, h: Hold, o: Outcome, replay: bool, env: Env): Record {
    if o.state == Approved then ExecutionRecord(i, o.result, Some(Approved), Some(h.deadline), replay, env.failure)
    else DecisionRecord(i, o.result, Some(o.state), Some(h.deadline), replay)
  }

  function SettledExecs(h: Hold, response: Json, state: ReviewState, now: int): seq<Exec> {
    if state == Approved then [Exec(now, Reviewed(response, Governing(h, response).deadline))] else []
  }

  function Settled(c: Cell, i: Intent, h: Hold, response: Json, o: Outcome, replay: bool, env: Env): Cell {
    Ended(Logged(c, SettledRecord(i, h, o, replay, env))
          .(execs := c.execs + SettledExecs(h, response, o.state, c.now)),
          SettledDone(h, response, o, c.now))
  }

  function DirectPass(c: Cell, i: Intent, r: ControlResult, env: Env): Cell {
    if r.verdict == Deny then
      Ended(Logged(c, DecisionRecord(i, r, None, None, false)),
            Done(Some(DenyMessage(r)), if r.unavailable then DeniedByOutage else DeniedByRule, c.now, None, None))
    else
      Ended(Logged(c, ExecutionRecord(i, r, None, None, false, env.failure))
            .(execs := c.execs + [Exec(c.now, Direct(env.reply))]),
            Done(None, if r.unavailable then RanUnauthorized else Ran, c.now, None, None))
  }

  /** What the call's own interrupt decodes to. */
  function SlotHold(slot: Option<Json>): Option<Hold> {
    if slot.None? then None else FromPayload(slot.value)
  }

  /** What one pass has to do: nothing more, act on a verdict, or hold the call for review. */
  datatype Turn =
    | Idle(cell: Cell)
    | Straight(cell: Cell, result: ControlResult)
    | Reviewing(cell: Cell, result: ControlResult, hold: Hold, source: Source)

  /** The turn a pass takes, given the hold that recovery finds if it is needed. */
  function TurnFinding(cfg: Config, c: Cell, i: Intent, env: Env, found: Option<Hold>): Turn {
    if c.done.Some? then Idle(c)
    else if c.entry.Some? then Reviewing(c, c.entry.value.result, c.entry.value.hold, Memory)
    else
      var c1 := c.(replies := c.replies + [env.reply]);
      match Authorized(cfg, env)
      case Raised => Idle(c1)
      case Answered(r) =>
        if !Enforceable(cfg, r.verdict) then Idle(c1)
        else if r.verdict != Verdict.Review then Straight(c1, r)
        else if found.Some? then Reviewing(c1, r, found.value, Checkpoint)
        else Reviewing(c1, r, BuildHold(i, r, cfg.fallback, c.now), Nowhere)
  }

  function Taken(turn: Turn, i: Intent, env: Env): Cell {
    match turn
    case Idle(c) => c
    case Straight(c, r) => DirectPass(c, i, r, env)
    case Reviewing(c, r, h, source) => HeldPass(c, i, r, h, source, env)
  }

  function CellTurn(cfg: Config, c: Cell, i: Intent, env: Env): Turn {
    TurnFinding(cfg, c, i, env, if env.stateReadable then SlotHold(c.slot) else None)
  }

  function CellPass(cfg: Config, c: Cell, i: Intent, env: Env): Cell {
    Taken(CellTurn(cfg, c, i, env), i, env)
  }

  function CellApply(cfg: Config, c: Cell, e: Event, t: Task): Cell {
    match e
    case Tick(n) => c.(now := c.now + n)
    case LoseMemory => c.(entry := None)
    case Foreign(_, _) => c
    case Call(i, env) => if Key(i) == t then CellPass(cfg, c, i, env) else c
    case Resume(i, response, env) =>
      if Key(i) == t && c.slot.Some? then CellPass(cfg, c.(response := Some(response)), i, env) else c
  }

  const BLANK := Cell(0, None, None, None, None, [], [], [])

  function CellRun(cfg: Config, es: seq<Event>, t: Task): Cell {
    if es == [] then BLANK else CellApply(cfg, CellRun(cfg, es[..|es| - 1], t), es[|es| - 1], t)
  }

  // ---------------------------------------------------------------- a call's view of the system

  function Of<T>(xs: seq<Tagged<T>>, t: Task): seq<T> {
    if xs == [] then []
    else
      var init, last := xs[..|xs| - 1], xs[|xs| - 1];
      if last.task == t then Of(init, t) + [last.item] else Of(init, t)
  }

  function View(s: Sys, t: Task): Cell {
    Cell(s.now, Look(s.pending, IdOf(t)), Stored(s.board, t), Look(s.responses, t), Look(s.done, t),
         Of(s.log, t), Of(s.execs, t), Of(s.replies, t))
  }

  lemma OfAppend<T>(xs: seq<Tagged<T>>, x: Tagged<T>, t: Task)
    ensures Of(xs + [x], t) == if x.task == t then Of(xs, t) + [x.item] else Of(xs, t)
  {
    assert (xs + [x])[..|xs|] == xs;
  }

  lemma {:induction false} OfContains<T>(xs: seq<Tagged<T>>, k: nat) returns (j: nat)
    requires k < |xs|
    ensures j < |Of(xs, xs[k].task)| && Of(xs, xs[k].task)[j] == xs[k].item
  {
    var init, last := xs[..|xs| - 1], xs[|xs| - 1];
    if k < |init| {
      j := OfContains(init, k);
    } else {
      j := |Of(init, last.task)|;
    }
  }

  // ---------------------------------------------------------------- the board

  /** A call's interrupt is a hold of that call. */
  predicate CleanSlot(slot: Slot) {
    slot.Ours? ==>
      && ColonFree(slot.task)
      && FromPayload(slot.payload).Some? && FromPayload(slot.payload).value.holdId == IdOf(slot.task)
  }

  predicate Clean(b: Board) {
    forall k :: 0 <= k < |b| ==> CleanSlot(b[k])
  }

  /** No interrupt of other code poses as the hold of call t. */
  predicate Apart(b: Board, t: Task) {
    b != [] ==> !(b[0].Other? && Poses(b[0].thread, b[0].payload, t)) && Apart(b[1..], t)
  }

  lemma {:induction false} ApartPut(b: Board, t: Task, p: Json, u: Task)
    requires Apart(b, u)
    ensures Apart(Put(b, t, p), u)
  {
    if b != [] {
      if b[0].Ours? && b[0].task == t {
        assert Put(b, t, p)[1..] == b[1..];
      } else {
        assert Put(b, t, p)[1..] == Put(b[1..], t, p);
        ApartPut(b[1..], t, p, u);
      }
    }
  }

  lemma {:induction false} ApartDrop(b: Board, t: Task, u: Task)
    requires Apart(b, u)
    ensures Apart(Drop(b, t), u)
  {
    if b != [] {
      ApartDrop(b[1..], t, u);
      if !(b[0].Ours? && b[0].task == t) {
        assert Drop(b, t)[1..] == Drop(b[1..], t);
      }
    }
  }

  lemma {:induction false} ApartOther(b: Board, thread: string, p: Json, u: Task)
    requires Apart(b, u) && !Poses(thread, p, u)
    ensures Apart(b + [Other(thread, p)], u)
  {
    if b != [] {
      assert (b + [Other(thread, p)])[1..] == b[1..] + [Other(thread, p)];
      ApartOther(b[1..], thread, p, u);
    }
  }

  lemma {:induction false} StoredPut(b: Board, t: Task, p: Json, u: Task)
    ensures Stored(Put(b, t, p), u) == if u == t then Some(p) else Stored(b, u)
  {
    if b != [] {
      if b[0].Ours? && b[0].task == t {
        assert Put(b, t, p)[1..] == b[1..];
      } else {
        assert Put(b, t, p)[1..] == Put(b[1..], t, p);
        StoredPut(b[1..], t, p, u);
      }
    }
  }

  lemma {:induction false} StoredDrop(b: Board, t: Task, u: Task)
    ensures Stored(Drop(b, t), u) == if u == t then None else Stored(b, u)
  {
    if b != [] {
      StoredDrop(b[1..], t, u);
      if !(b[0].Ours? && b[0].task == t) {
        assert Drop(b, t)[1..] == Drop(b[1..], t);
      }
    }
  }

  lemma {:induction false} StoredOther(b: Board, thread: string, p: Json, u: Task)
    ensures Stored(b + [Other(thread, p)], u) == Stored(b, u)
  {
    if b != [] {
      assert (b + [Other(thread, p)])[1..] == b[1..] + [Other(thread, p)];
      StoredOther(b[1..], thread, p, u);
    }
  }

  lemma {:induction false} CleanPut(b: Board, t: Task, h: Hold)
    requires Clean(b) && ColonFree(t) && h.holdId == IdOf(t)
    ensures Clean(Put(b, t, ToPayload(h)))
  {
    RoundTrip(h);
    if b != [] && !(b[0].Ours? && b[0].task == t) {
      CleanPut(b[1..], t, h);
    }
  }

  lemma {:induction false} CleanDrop(b: Board, t: Task)
    requires Clean(b)
    ensures Clean(Drop(b, t))
  {
    if b != [] {
      CleanDrop(b[1..], t);
    }
  }

  /** Scanning a thread's interrupts finds the call's own hold among all the others, holds of
      other calls and of other code included, as long as none poses as this call's. */
  lemma {:induction false} ScanFindsOwn(b: Board, t: Task)
    requires Clean(b) && ColonFree(t) && Apart(b, t)
    ensures Scan(Snapshot(b, t.thread), IdOf(t)) == SlotHold(Stored(b, t))
  {
    if b != [] {
      var rest := b[1..];
      forall k | 0 <= k < |rest| ensures CleanSlot(rest[k]) {
        assert rest[k] == b[k + 1];
      }
      ScanFindsOwn(rest, t);
      assert CleanSlot(b[0]);
      if b[0].Ours? {
        IdOfInjective(b[0].task, t);
      }
      if SlotThread(b[0]) == t.thread {
        assert Snapshot(b, t.thread)[1..] == Snapshot(rest, t.thread);
      }
    }
  }

  // ---------------------------------------------------------------- locality

  /** What makes calls separable: clean interrupts, and review
      entries keyed by their hold. */
  predicate Sound(s: Sys) {
    && Clean(s.board)
    && (forall id :: id in s.pending ==>
          s.pending[id].hold.holdId == id && s.pending[id].result.verdict == Verdict.Review)
  }

  /** From s to s', call t's view became c and every other colon-free call kept its own; and
      nothing new poses as the hold of any call. */
  ghost predicate Local(s: Sys, s': Sys, t: Task, c: Cell) {
    && Sound(s')
    && (forall u :: ColonFree(u) ==> View(s', u) == if u == t then c else View(s, u))
    && (forall u :: Apart(s.board, u) ==> Apart(s'.board, u))
  }

  lemma LocalChain(s: Sys, s1: Sys, s2: Sys, t: Task, c1: Cell, c2: Cell)
    requires Local(s, s1, t, c1) && Local(s1, s2, t, c2)
    ensures Local(s, s2, t, c2)
  {
  }

  lemma EmitLocal(s: Sys, rec: Record)
    requires Sound(s)
    ensures Local(s, Emit(s, rec), Key(rec.intent), Logged(View(s, Key(rec.intent)), rec))
  {
    forall u {
      OfAppend(s.log, Tagged(Key(rec.intent), rec), u);
    }
  }

  lemma RememberLocal(s: Sys, r: ControlResult, h: Hold, t: Task)
    requires Sound(s) && h.holdId == IdOf(t) && ColonFree(t) && r.verdict == Verdict.Review
    ensures Local(s, Remember(s, r, h), t, View(s, t).(entry := Some(Entry(r, h))))
  {
    forall u | ColonFree(u) {
      IdOfInjective(u, t);
    }
  }

  lemma ForgetLocal(s: Sys, t: Task)
    requires Sound(s) && ColonFree(t)
    ensures Local(s, Forget(s, IdOf(t)), t, View(s, t).(entry := None))
  {
    forall u | ColonFree(u) {
      IdOfInjective(u, t);
    }
  }

  lemma StoreLocal(s: Sys, t: Task, h: Hold)
    requires Sound(s) && h.holdId == IdOf(t) && ColonFree(t)
    ensures Local(s, s.(board := Put(s.board, t, ToPayload(h))), t, View(s, t).(slot := Some(ToPayload(h))))
  {
    CleanPut(s.board, t, h);
    forall u {
      StoredPut(s.board, t, ToPayload(h), u);
    }
    forall u | Apart(s.board, u) {
      ApartPut(s.board, t, ToPayload(h), u);
    }
  }

  lemma CompleteLocal(s: Sys, t: Task, d: Done)
    requires Sound(s)
    ensures Local(s, Complete(s, t, d), t, Ended(View(s, t), d))
  {
    CleanDrop(s.board, t);
    forall u {
      StoredDrop(s.board, t, u);
    }
    forall u | Apart(s.board, u) {
      ApartDrop(s.board, t, u);
    }
  }

  lemma ExecuteLocal(s: Sys, t: Task, via: Via)
    requires Sound(s)
    ensures Local(s, Execute(s, t, via), t, View(s, t).(execs := View(s, t).execs + [Exec(s.now, via)]))
  {
    forall u {
      OfAppend(s.execs, Tagged(t, Exec(s.now, via)), u);
    }
  }

  lemma ReplyLocal(s: Sys, t: Task, reply: Transport)
    requires Sound(s)
    ensures Local(s, s.(replies := s.replies + [Tagged(t, reply)]), t,
                  View(s, t).(replies := View(s, t).replies + [reply]))
  {
    forall u {
      OfAppend(s.replies, Tagged(t, reply), u);
    }
  }
}
