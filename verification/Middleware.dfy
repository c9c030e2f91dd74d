/** The objects of a running deployment: the graph the host keeps, the recorder, the middleware
    around every tool call, and the control plane with its watchdog. Every method is proved
    against the protocol's specification of it
    (agentcontrol/adapters/langgraph/middleware.py, agentcontrol/core/otel.py,
    agentcontrol/core/control_plane.py). */
module Middleware {
  import opened Text
  import opened Json
  import opened Domain
  import opened Opa
  import opened Review
  import opened Telemetry
  import opened Protocol
  import opened Cells
  import opened Watchdog

  /** What the protocol asks of the host: a clock, interrupts with their responses, completed
      calls, and the tool executions themselves. */
  class Graph {
    var clock: int
    var board: Board
    var responses: map<Task, Json>
    var done: map<Task, Done>
    var execs: seq<Tagged<Exec>>

    predicate Untouched()
      reads this
    {
      clock == 0 && board == [] && responses == map[] && done == map[] && execs == []
    }

    constructor ()
      ensures Untouched()
    {
      clock := 0;
      board := [];
      responses := map[];
      done := map[];
      execs := [];
    }

    method Tick(n: nat)
      modifies this`clock
      ensures clock == old(clock) + n
    {
      clock := clock + n;
    }

    /** The response given for the call, or none after storing the payload. */
    method Interrupt(t: Task, payload: Json) returns (response: Option<Json>)
      modifies this`board
      ensures if t in responses then response == Some(responses[t]) && board == old(board)
              else response == None && board == Put(old(board), t, payload)
    {
      if t in responses {
        return Some(responses[t]);
      }
      board := Put(board, t, payload);
      response := None;
    }

    method Execute(t: Task, via: Via)
      modifies this`execs
      ensures execs == old(execs) + [Tagged(t, Exec(clock, via))]
    {
      execs := execs + [Tagged(t, Exec(clock, via))];
    }

    method Complete(t: Task, d: Done)
      modifies this`board, this`responses, this`done
      ensures board == Drop(old(board), t) && responses == old(responses) - {t} && done == old(done)[t := d]
    {
      board := Drop(board, t);
      responses := responses - {t};
      done := done[t := d];
    }
  }

  /** Emits governance records. */
  class Recorder {
    var log: seq<Tagged<Record>>

    constructor ()
      ensures log == []
    {
      log := [];
    }

    /** One record for a decision that does not run the tool. */
    method RecordDecision(i: Intent, r: ControlResult, state: Option<ReviewState>, deadline: Option<string>,
                          replay: bool)
      modifies this
      ensures log == old(log) + [Tagged(Key(i), DecisionRecord(i, r, state, deadline, replay))]
    {
      var rec := Record(i, r, state, deadline, replay, None);
      if state == Some(TimedOut) {
        rec := rec.(error := Some(TIMEOUT));
      } else if state == Some(Rejected) {
        rec := rec.(error := Some(REJECTED));
      } else if r.unavailable && r.verdict == Deny {
        rec := rec.(error := Some(OUTAGE));
      } else if r.verdict == Deny {
        rec := rec.(error := Some(DENIED));
      }
      log := log + [Tagged(Key(i), rec)];
    }

    /** The one record a decision shares with the execution it led to. */
    method GovernedExecution(i: Intent, r: ControlResult, state: Option<ReviewState>, deadline: Option<string>,
                             replay: bool, failure: Option<string>)
      modifies this
      ensures log == old(log) + [Tagged(Key(i), ExecutionRecord(i, r, state, deadline, replay, failure))]
    {
      var rec := Record(i, r, state, deadline, replay, None);
      if failure.Some? {
        rec := rec.(error := failure);
      }
      log := log + [Tagged(Key(i), rec)];
    }
  }

  /** Authorizes every tool call before it runs. */
  class AgentMiddleware {
    const cfg: Config
    const graph: Graph
    const recorder: Recorder
    const provider: Provider
    var pending: map<string, Entry>
    var replies: seq<Tagged<Transport>>

    constructor (cfg: Config, graph: Graph, recorder: Recorder, provider: Provider)
      requires provider.mode == cfg.failMode
      ensures this.cfg == cfg && this.graph == graph && this.recorder == recorder && this.provider == provider
      ensures pending == map[] && replies == []
      ensures graph.Untouched() && recorder.log == [] ==> World() == INIT
    {
      this.cfg := cfg;
      this.graph := graph;
      this.recorder := recorder;
      this.provider := provider;
      pending := map[];
      replies := [];
    }

    /** The system the protocol speaks of. */
    function World(): Sys
      reads this, graph, recorder
    {
      Sys(graph.clock, pending, graph.board, graph.responses, graph.done, recorder.log, graph.execs, replies)
    }

    predicate Wired() {
      provider.mode == cfg.failMode
    }

    method PendingHolds() returns (snapshot: map<string, Hold>)
      ensures snapshot.Keys == pending.Keys
      ensures forall id :: id in snapshot ==> snapshot[id] == pending[id].hold
    {
      snapshot := map id | id in pending :: pending[id].hold;
    }

    method LookupPending(id: string) returns (entry: Option<Entry>)
      ensures entry == Look(pending, id)
    {
      entry := if id in pending then Some(pending[id]) else None;
    }

    method RememberPending(r: ControlResult, hold: Hold)
      modifies this`pending
      ensures World() == Remember(old(World()), r, hold)
    {
      pending := pending[hold.holdId := Entry(r, hold)];
    }

    method ForgetPending(id: string)
      modifies this`pending
      ensures World() == Forget(old(World()), id)
    {
      pending := pending - {id};
    }

    /** The hold stored for this call in the graph's own state, whatever else its thread waits
        on; none when the state cannot be read. */
    method RecoverHoldFromState(i: Intent, readable: bool) returns (hold: Option<Hold>)
      ensures hold == Recovered(graph.board, i, readable)
    {
      if i.threadId.None? || !readable {
        return None;
      }
      var interrupts := Snapshot(graph.board, i.threadId.value);
      var k := 0;
      assert interrupts[0..] == interrupts;
      while k < |interrupts|
        invariant 0 <= k <= |interrupts|
        invariant Scan(interrupts, HoldId(i)) == Scan(interrupts[k..], HoldId(i))
      {
        var candidate := FromPayload(interrupts[k]);
        if candidate.Some? && candidate.value.holdId == HoldId(i) {
          return candidate;
        }
        assert interrupts[k..][1..] == interrupts[k + 1..];
        k := k + 1;
      }
      hold := None;
    }

    /** The evidence of the collectors that answered, in their order; none if the budget ran out. */
    method CollectEvidence(gathered: Option<seq<Attempt>>) returns (evidence: seq<Evidence>)
      ensures evidence == Collected(gathered)
      ensures if gathered.None? then evidence == [] else KeepsAnswers(evidence, gathered.value)
    {
      evidence := [];
      if gathered.Some? {
        for k := 0 to |gathered.value|
          invariant evidence == Kept(gathered.value[..k])
        {
          assert gathered.value[..k + 1][..k] == gathered.value[..k];
          if gathered.value[k].Got? {
            evidence := evidence + [gathered.value[k].item];
          }
        }
        assert gathered.value[..|gathered.value|] == gathered.value;
        KeptExactly(gathered.value);
      }
    }

    /** Whether the adapter can enforce the verdict; if not, the pass fails loudly. */
    method EnforceCapability(r: ControlResult) returns (ok: bool)
      ensures ok == Enforceable(cfg, r.verdict)
    {
      if cfg.capabilities.None? {
        return true;
      }
      match r.verdict
      case Deny => ok := cfg.capabilities.value.blockBeforeTool;
      case Review => ok := cfg.capabilities.value.humanApproval;
      case _ => ok := true;
    }

    method Decide(i: Intent, env: Env) returns (flow: Flow<Decision>)
      requires Wired()
      modifies this`replies, provider
      ensures Step(World(), flow) == Protocol.Decide(cfg, old(World()), i, env)
    {
      var known := LookupPending(HoldId(i));
      if known.Some? {
        return Go(Decision(known.value.result, Some(known.value.hold), false));
      }
      var hold := RecoverHoldFromState(i, env.stateReadable);
      var evidence := CollectEvidence(env.gathered);
      var answer, _ := provider.AuthorizeReply(env.reply, evidence);
      replies := replies + [Tagged(Key(i), env.reply)];
      if answer.Raised? {
        return Crashed;
      }
      var ok := EnforceCapability(answer.result);
      if !ok {
        return Crashed;
      }
      flow := Go(Decision(answer.result, hold, hold.Some?));
    }

    /** Pauses for a human, then resolves against the persisted deadline. */
    method RunReview(i: Intent, d: Decision) returns (flow: Flow<Resolution>)
      modifies this`pending, graph`board, recorder
      ensures Step(World(), flow) == Protocol.RunReview(cfg, old(World()), i, d)
    {
      var hold: Hold;
      var response: Option<Json>;
      var replay: bool;
      if d.hold.Some? && !d.recovered {
        hold := d.hold.value;
        response := graph.Interrupt(Key(i), ToPayload(hold));
        if response.None? {
          return Suspended;
        }
        replay := false;
      } else if d.hold.Some? {
        hold := d.hold.value;
        RememberPending(d.result, hold);
        response := graph.Interrupt(Key(i), ToPayload(hold));
        if response.None? {
          return Suspended;
        }
        recorder.RecordDecision(i, d.result, Some(Pending), Some(hold.deadline), true);
        replay := true;
      } else {
        hold := BuildHold(i, d.result, cfg.fallback, graph.clock);
        RememberPending(d.result, hold);
        response := graph.Interrupt(Key(i), ToPayload(hold));
        if response.None? {
          recorder.RecordDecision(i, d.result, Some(Pending), Some(hold.deadline), false);
          return Suspended;
        }
        recorder.RecordDecision(i, d.result, Some(Pending), Some(hold.deadline), true);
        replay := true;
      }
      var persisted := FromPayload(response.value).GetOr(hold);
      var outcome := Resolve(persisted, response.value, d.result, graph.clock);
      if outcome.None? {
        return Crashed;
      }
      ForgetPending(hold.holdId);
      if outcome.value.state != Approved {
        recorder.RecordDecision(i, outcome.value.result, Some(outcome.value.state), Some(hold.deadline), replay);
      }
      flow := Go(Resolution(outcome.value, hold, replay, response.value));
    }

    /** Acts on a resolved review: runs the tool if approved, else denies. */
    method FinishReview(i: Intent, res: Resolution, env: Env)
      modifies graph, recorder
      ensures World() == ActReviewed(old(World()), i, res, env)
    {
      var o := res.outcome;
      if o.state != Approved {
        graph.Complete(Key(i), Done(Some(DenyMessage(o.result)), HeldEnding(o.state), graph.clock,
                                    Some(res.hold.deadline), Some(res.response)));
        return;
      }
      graph.Execute(Key(i), Reviewed(res.response, Governing(res.hold, res.response).deadline));
      recorder.GovernedExecution(i, o.result, Some(Approved), Some(res.hold.deadline), res.replay, env.failure);
      graph.Complete(Key(i), Done(None, RanApproved, graph.clock, Some(res.hold.deadline), Some(res.response)));
    }

    /** Acts on a verdict that needs no human. */
    method FinishDirect(i: Intent, r: ControlResult, env: Env)
      modifies graph, recorder
      ensures World() == ActDirect(old(World()), i, r, env)
    {
      if r.verdict == Deny {
        recorder.RecordDecision(i, r, None, None, false);
        graph.Complete(Key(i), Done(Some(DenyMessage(r)), if r.unavailable then DeniedByOutage else DeniedByRule,
                                    graph.clock, None, None));
        return;
      }
      graph.Execute(Key(i), Direct(env.reply));
      recorder.GovernedExecution(i, r, None, None, false, env.failure);
      graph.Complete(Key(i), Done(None, if r.unavailable then RanUnauthorized else Ran, graph.clock, None, None));
    }

    method Act(i: Intent, d: Decision, env: Env)
      modifies this`pending, graph, recorder
      ensures World() == Protocol.Act(cfg, old(World()), i, d, env)
    {
      if d.result.verdict == Verdict.Review {
        var flow := RunReview(i, d);
        if flow.Go? {
          FinishReview(i, flow.value, env);
        }
      } else {
        FinishDirect(i, d.result, env);
      }
    }

    /** The hook around a tool call. */
    method WrapToolCall(i: Intent, env: Env)
      requires Wired()
      modifies this, graph, recorder, provider
      ensures World() == Pass(cfg, old(World()), i, env)
    {
      if Key(i) in graph.done {
        return;
      }
      var flow := Decide(i, env);
      if flow.Go? {
        Act(i, flow.value, env);
      }
    }

    /** A response is given to a waiting call, and its body runs again. */
    method ResumeCall(i: Intent, response: Json, env: Env)
      requires Wired()
      modifies this, graph, recorder, provider
      ensures World() == Apply(cfg, old(World()), Resume(i, response, env))
    {
      if Stored(graph.board, Key(i)).Some? {
        graph.responses := graph.responses[Key(i) := response];
        WrapToolCall(i, env);
      }
    }
  }

  /** Owns the middleware and the watchdog. */
  class ControlPlane {
    const middleware: AgentMiddleware

    constructor (middleware: AgentMiddleware)
      ensures this.middleware == middleware
    {
      this.middleware := middleware;
    }

    /** Resumes a thread with the sentinel; a failure is logged and the hold stays. */
    method ResumeExpired(thread: string, route: Route, env: Env)
      requires middleware.Wired()
      modifies middleware, middleware.graph, middleware.recorder, middleware.provider
      ensures middleware.World() ==
              if thread in route
              then Apply(middleware.cfg, old(middleware.World()), Resume(route[thread], JStr(SENTINEL), env))
              else old(middleware.World())
    {
      if thread in route {
        middleware.ResumeCall(route[thread], JStr(SENTINEL), env);
      }
    }

    /** Some time goes by, then one hold of the snapshot is looked at. */
    method LookAt(v: Visit, hold: Hold, ghost snapshot: map<string, Entry>)
      requires middleware.Wired() && v.id in snapshot && snapshot[v.id].hold == hold
      modifies middleware, middleware.graph, middleware.recorder, middleware.provider
      ensures middleware.World() == VisitStep(middleware.cfg, old(middleware.World()), snapshot, v)
    {
      middleware.graph.Tick(v.wait);
      assert middleware.World() == Apply(middleware.cfg, old(middleware.World()), Tick(v.wait));
      if IsExpired(hold, middleware.graph.clock) {
        ResumeExpired(ThreadOf(v.id), v.route, v.env);
      }
    }

    /** One turn of the watchdog: every tracked hold is looked at once, against a snapshot taken at
        the start, in some order and with any time between; where each resume is delivered, and what
        the resumed pass meets, is up to the world. */
    method SweepOnce() returns (ghost visits: seq<Visit>)
      requires middleware.Wired()
      modifies middleware, middleware.graph, middleware.recorder, middleware.provider
      ensures middleware.World() ==
              Sweep(middleware.cfg, old(middleware.World()), old(middleware.pending), visits)
      ensures forall id :: id in old(middleware.pending) <==> Looked(visits, id)
    {
      var snapshot := middleware.PendingHolds();
      ghost var entries := middleware.pending;
      var todo := snapshot.Keys;
      visits := [];
      while todo != {}
        invariant todo <= snapshot.Keys
        invariant forall id :: id in snapshot && id !in todo <==> Looked(visits, id)
        invariant middleware.World() == Sweep(middleware.cfg, old(middleware.World()), entries, visits)
        decreases todo
      {
        var id :| id in todo;
        var wait: nat, route: Route, env: Env := *, *, *;
        var v := Visit(wait, id, route, env);
        ghost var before := visits;
        LookAt(v, snapshot[id], entries);
        visits := before + [v];
        assert visits[..|visits| - 1] == before;
        todo := todo - {id};
      }
    }
  }
}
