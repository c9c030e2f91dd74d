/** The hold protocol over one whole system: what a pass over a tool call does to the
    middleware's memory, the graph's checkpoint and the record log
    (agentcontrol/adapters/langgraph/middleware.py). */
module Protocol {
  import opened Text
  import opened Json
  import opened Domain
  import opened Opa
  import opened Review
  import opened Telemetry

  // ---------------------------------------------------------------- the checkpoint

  /** One stored interrupt of a thread: a tool call's, or somebody else's. */
  datatype Slot = Ours(task: Task, payload: Json) | Other(thread: string, payload: Json)

  function SlotThread(slot: Slot): string {
    match slot
    case Ours(t, _) => t.thread
    case Other(th, _) => th
  }

  type Board = seq<Slot>

  /** The interrupt stored for a call. */
  function Stored(b: Board, t: Task): Option<Json> {
    if b == [] then None
    else if b[0].Ours? && b[0].task == t then Some(b[0].payload)
    else Stored(b[1..], t)
  }

  /** Storing overwrites the call's interrupt, or adds one. */
  function Put(b: Board, t: Task, payload: Json): Board {
    if b == [] then [Ours(t, payload)]
    else if b[0].Ours? && b[0].task == t then [Ours(t, payload)] + b[1..]
    else [b[0]] + Put(b[1..], t, payload)
  }

  function Drop(b: Board, t: Task): Board {
    if b == [] then []
    else if b[0].Ours? && b[0].task == t then Drop(b[1..], t)
    else [b[0]] + Drop(b[1..], t)
  }

  /** The payloads of a thread's pending interrupts, in order. */
  function Snapshot(b: Board, thread: string): seq<Json> {
    if b == [] then []
    else if SlotThread(b[0]) == thread then [b[0].payload] + Snapshot(b[1..], thread)
    else Snapshot(b[1..], thread)
  }

  /** The first payload that decodes as the hold with this id. */
  function Scan(payloads: seq<Json>, id: string): Option<Hold> {
    if payloads == [] then None
    else
      var candidate := FromPayload(payloads[0]);
      if candidate.Some? && candidate.value.holdId == id then candidate
      else Scan(payloads[1..], id)
  }

  // ---------------------------------------------------------------- the system

  datatype Entry = Entry(result: ControlResult, hold: Hold)

  /** Why a call ended. */
  datatype Ending =
    | Ran | RanUnauthorized | RanApproved
    | DeniedByRule | DeniedByOutage | DeniedByHuman | DeniedByTimeout

  /** How a call completed: the denial the agent reads (None for the tool's own output), the
      cause, the moment, and for a held call its deadline and the response it resolved with. */
  datatype Done = Done(
    message: Option<string>, ending: Ending, at: int,
    deadline: Option<string>, response: Option<Json>)

  /** What let a tool run: the reply decoded on that pass, or a response to a hold. */
  datatype Via = Direct(reply: Transport) | Reviewed(response: Json, deadline: string)

  datatype Exec = Exec(at: int, via: Via)

  datatype Tagged<T> = Tagged(task: Task, item: T)

  /** The clock; the middleware's memory; the checkpoint with its responses and completed
      calls; the record log; and the histories of tool executions and provider replies. */
  datatype Sys = Sys(
    now: int,
    pending: map<string, Entry>,
    board: Board,
    responses: map<Task, Json>,
    done: map<Task, Done>,
    log: seq<Tagged<Record>>,
    execs: seq<Tagged<Exec>>,
    replies: seq<Tagged<Transport>>)

  const INIT := Sys(0, map[], [], map[], map[], [], [], [])

  datatype Capabilities = Capabilities(blockBeforeTool: bool, humanApproval: bool)

  datatype Config = Config(failMode: FailMode, fallback: int, capabilities: Option<Capabilities>)

  /** One collector's outcome within the budget. */
  datatype Attempt = Got(item: Evidence) | Failed

  /** What the outside world does during one pass: the collectors' outcomes (None when they
      overran the budget), the policy engine's reply, whether the graph's state can be read,
      and the exception the tool raises if it runs. */
  datatype Env = Env(gathered: Option<seq<Attempt>>, reply: Transport, stateReadable: bool, failure: Option<string>)

  /** How a step of the body ends: with a value, suspended by an interrupt, or by an exception. */
  datatype Flow<+T> = Go(value: T) | Suspended | Crashed

  datatype Step<+T> = Step(sys: Sys, flow: Flow<T>)

  // ---------------------------------------------------------------- deciding

  function Kept(attempts: seq<Attempt>): seq<Evidence> {
    if attempts == [] then []
    else
      var init, last := attempts[..|attempts| - 1], attempts[|attempts| - 1];
      if last.Got? then Kept(init) + [last.item] else Kept(init)
  }

  /** How many collectors answered. */
  function Gots(attempts: seq<Attempt>): nat {
    if attempts == [] then 0
    else Gots(attempts[..|attempts| - 1]) + if attempts[|attempts| - 1].Got? then 1 else 0
  }

  /** What is kept: each collected item at the place its rank among those that answered gives it, and
      nothing else. */
  ghost predicate KeepsAnswers(evidence: seq<Evidence>, attempts: seq<Attempt>) {
    && |evidence| == Gots(attempts)
    && forall k {:trigger attempts[..k]} :: 0 <= k < |attempts| && attempts[k].Got? ==>
         Gots(attempts[..k]) < |evidence| && evidence[Gots(attempts[..k])] == attempts[k].item
  }

  lemma {:induction false} KeptExactly(attempts: seq<Attempt>)
    ensures KeepsAnswers(Kept(attempts), attempts)
  {
    if attempts != [] {
      var init := attempts[..|attempts| - 1];
      KeptExactly(init);
      forall k | 0 <= k < |attempts| && attempts[k].Got?
        ensures Gots(attempts[..k]) < |Kept(attempts)| && Kept(attempts)[Gots(attempts[..k])] == attempts[k].item
      {
        if k < |init| {
          assert attempts[..k] == init[..k];
        } else {
          assert attempts[..k] == init;
        }
      }
    }
  }

  function Collected(gathered: Option<seq<Attempt>>): seq<Evidence> {
    if gathered.None? then [] else Kept(gathered.value)
  }

  function Authorized(cfg: Config, env: Env): Answer {
    Authorize(cfg.failMode, env.reply, Collected(env.gathered))
  }

  predicate Enforceable(cfg: Config, v: Verdict) {
    cfg.capabilities.Some? ==>
      && (v == Deny ==> cfg.capabilities.value.blockBeforeTool)
      && (v == Verdict.Review ==> cfg.capabilities.value.humanApproval)
  }

  /** The hold recovered from the graph's own state, when it can be read. */
  function Recovered(b: Board, i: Intent, readable: bool): Option<Hold> {
    if i.threadId.None? || !readable then None
    else Scan(Snapshot(b, i.threadId.value), HoldId(i))
  }

  datatype Decision = Decision(result: ControlResult, hold: Option<Hold>, recovered: bool)

  function Decide(cfg: Config, s: Sys, i: Intent, env: Env): Step<Decision> {
    if HoldId(i) in s.pending then
      var e := s.pending[HoldId(i)];
      Step(s, Go(Decision(e.result, Some(e.hold), false)))
    else
      var hold := Recovered(s.board, i, env.stateReadable);
      var s' := s.(replies := s.replies + [Tagged(Key(i), env.reply)]);
      match Authorized(cfg, env)
      case Raised => Step(s', Crashed)
      case Answered(r) =>
        if !Enforceable(cfg, r.verdict) then Step(s', Crashed)
        else Step(s', Go(Decision(r, hold, hold.Some?)))
  }

  // ---------------------------------------------------------------- reviewing

  function Emit(s: Sys, rec: Record): Sys {
    s.(log := s.log + [Tagged(Key(rec.intent), rec)])
  }

  function Remember(s: Sys, r: ControlResult, h: Hold): Sys {
    s.(pending := s.pending[h.holdId := Entry(r, h)])
  }

  function Forget(s: Sys, id: string): Sys {
    s.(pending := s.pending - {id})
  }

  /** `interrupt`: the response given for the call, or else the payload is stored and the
      body suspends. */
  function Interrupt(s: Sys, t: Task, payload: Json): Step<Json> {
    if t in s.responses then Step(s, Go(s.responses[t]))
    else Step(s.(board := Put(s.board, t, payload)), Suspended)
  }

  function PendingRecord(i: Intent, r: ControlResult, h: Hold, replay: bool): Record {
    DecisionRecord(i, r, Some(Pending), Some(h.deadline), replay)
  }

  datatype Resolution = Resolution(outcome: Outcome, hold: Hold, replay: bool, response: Json)

  function RunReview(cfg: Config, s: Sys, i: Intent, d: Decision): Step<Resolution> {
    var known := d.hold.Some? && !d.recovered;
    var hold := if d.hold.Some? then d.hold.value else BuildHold(i, d.result, cfg.fallback, s.now);
    var s1 := if known then s else Remember(s, d.result, hold);
    var Step(s2, answer) := Interrupt(s1, Key(i), ToPayload(hold));
    if !answer.Go? then
      Step(if d.hold.None? then Emit(s2, PendingRecord(i, d.result, hold, false)) else s2, Suspended)
    else
      var s3 := if known then s2 else Emit(s2, PendingRecord(i, d.result, hold, true));
      match Resolve(Governing(hold, answer.value), answer.value, d.result, s.now)
      case None => Step(s3, Crashed)
      case Some(o) =>
        var s4 := Forget(s3, hold.holdId);
        var s5 := if o.state == Approved then s4
                  else Emit(s4, DecisionRecord(i, o.result, Some(o.state), Some(hold.deadline), !known));
        Step(s5, Go(Resolution(o, hold, !known, answer.value)))
  }

  // ---------------------------------------------------------------- acting

  /** The graph records the call's completion and clears its interrupt and response. */
  function Complete(s: Sys, t: Task, d: Done): Sys {
    s.(board := Drop(s.board, t), responses := s.responses - {t}, done := s.done[t := d])
  }

  function Execute(s: Sys, t: Task, via: Via): Sys {
    s.(execs := s.execs + [Tagged(t, Exec(s.now, via))])
  }

  function DenyMessage(r: ControlResult): string {
    "AgentControl denied this tool call. " +
    if r.policyId.GetOr("") != "" then r.reason + " (policy: " + r.policyId.value + ")" else r.reason
  }

  function HeldEnding(state: ReviewState): Ending {
    match state
    case Approved => RanApproved
    case TimedOut => DeniedByTimeout
    case _ => DeniedByHuman
  }

  function ActReviewed(s: Sys, i: Intent, res: Resolution, env: Env): Sys {
    var t := Key(i);
    var o := res.outcome;
    var d := Done(if o.state == Approved then None else Some(DenyMessage(o.result)), HeldEnding(o.state), s.now,
                  Some(res.hold.deadline), Some(res.response));
    if o.state == Approved then
      var ran := Execute(s, t, Reviewed(res.response, Governing(res.hold, res.response).deadline));
      Complete(Emit(ran, ExecutionRecord(i, o.result, Some(Approved), Some(res.hold.deadline), res.replay,
                                         env.failure)), t, d)
    else
      Complete(s, t, d)
  }

  function ActDirect(s: Sys, i: Intent, r: ControlResult, env: Env): Sys {
    var t := Key(i);
    if r.verdict == Deny then
      Complete(Emit(s, DecisionRecord(i, r, None, None, false)), t,
               Done(Some(DenyMessage(r)), if r.unavailable then DeniedByOutage else DeniedByRule, s.now, None, None))
    else
      Complete(Emit(Execute(s, t, Direct(env.reply)), ExecutionRecord(i, r, None, None, false, env.failure)), t,
               Done(None, if r.unavailable then RanUnauthorized else Ran, s.now, None, None))
  }

  function Act(cfg: Config, s: Sys, i: Intent, d: Decision, env: Env): Sys {
    if d.result.verdict == Verdict.Review then
      var Step(s', flow) := RunReview(cfg, s, i, d);
      if flow.Go? then ActReviewed(s', i, flow.value, env) else s'
    else
      ActDirect(s, i, d.result, env)
  }

  /** One run of the body over a call. The host never runs a completed call again. */
  function Pass(cfg: Config, s: Sys, i: Intent, env: Env): Sys {
    if Key(i) in s.done then s
    else
      var Step(s', flow) := Decide(cfg, s, i, env);
      if flow.Go? then Act(cfg, s', i, flow.value, env) else s'
  }

  // ---------------------------------------------------------------- events and runs

  datatype Event =
    | Tick(seconds: nat)                               // the clock moves
    | LoseMemory                                       // the middleware's pending map is lost
    | Foreign(thread: string, payload: Json)           // other code interrupts a thread
    | Call(intent: Intent, env: Env)                   // the body runs: first, or again unanswered
    | Resume(intent: Intent, response: Json, env: Env) // a response is given and the body runs

  function Apply(cfg: Config, s: Sys, e: Event): Sys {
    match e
    case Tick(n) => s.(now := s.now + n)
    case LoseMemory => s.(pending := map[])
    case Foreign(thread, payload) => s.(board := s.board + [Other(thread, payload)])
    case Call(i, env) => Pass(cfg, s, i, env)
    case Resume(i, response, env) =>
      if Stored(s.board, Key(i)).Some?
      then Pass(cfg, s.(responses := s.responses[Key(i) := response]), i, env)
      else s
  }

  function Run(cfg: Config, es: seq<Event>): Sys {
    if es == [] then INIT else Apply(cfg, Run(cfg, es[..|es| - 1]), es[|es| - 1])
  }

  // ---------------------------------------------------------------- hypotheses on runs

  predicate About(e: Event, t: Task) {
    (e.Call? || e.Resume?) && Key(e.intent) == t
  }

  /** Other code's interrupt poses as the hold of call t: on t's thread, with t's hold id. */
  predicate Poses(thread: string, payload: Json, t: Task) {
    thread == t.thread && FromPayload(payload).Some? && FromPayload(payload).value.holdId == IdOf(t)
  }

  /** Calls are well formed, and other code's interrupts do not pose as call t's hold. */
  predicate GoodEvent(e: Event, t: Task) {
    && ((e.Call? || e.Resume?) ==> WellFormed(e.intent))
    && (e.Foreign? ==> !Poses(e.thread, e.payload, t))
  }

  predicate Good(es: seq<Event>, t: Task) {
    ColonFree(t) && forall k :: 0 <= k < |es| ==> GoodEvent(es[k], t)
  }

  /** The graph's state can be read on every pass. */
  predicate Readable(es: seq<Event>) {
    forall k :: 0 <= k < |es| && (es[k].Call? || es[k].Resume?) ==> es[k].env.stateReadable
  }

  predicate NoLoss(es: seq<Event>) {
    forall k :: 0 <= k < |es| ==> !es[k].LoseMemory?
  }
}
