# LangRun: the human-review hold protocol, verified

LangRun puts a policy engine in front of every tool call of an agent. A call the policy sends
to *review* is suspended by an interrupt, survives being run again from its start and the loss of
the middleware's memory, and is resolved against an absolute deadline kept in the graph's
checkpoint. This project models that protocol and proves what it keeps over every run.

| file | part of the system |
|---|---|
| `Text.dfy`, `Json.dfy` | decimal text, splitting, the strip/lower normal form; JSON trees and the coercions applied to them |
| `Domain.dfy` | intents, evidence, results, the hold key, the evidence grouping loop |
| `Opa.dfy` | decoding one policy reply, fail modes, the client object |
| `Review.dfy` | hold payload, deadline, resolution of a response |
| `Telemetry.dfy`, `Spans.dfy` | governance records and span attributes; what a reader of a span finds under each key |
| `Protocol.dfy` | the whole system as one state, one pass of the middleware, events and runs |
| `Cells.dfy`, `Locality.dfy` | a reference semantics for one call, and the proof that every run looks like it to every call |
| `Histories.dfy` | why each call ended, traced to the events behind it, and the record log read back |
| `Deadlines.dfy` | exactly when a hold keeps its deadline, record counts, approval safety |
| `Lateness.dfy` | exactly when an expired hold is approved, and a run for each way it happens |
| `Accounts.dfy` | holds, records, messages and spans say what provider, reviewer and tool said |
| `MemoryLoss.dfy` | losing memory changes nothing but replay marks |
| `Watchdog.dfy` | sweeps, draining, bounded liveness |
| `Bundle.dfy` | the shipped policy rules, through the client and the protocol |
| `Middleware.dfy` | the mutable objects (graph, recorder, middleware, control plane), each method proved against the protocol |

## How the model works

A run is a sequence of events: the clock moves, memory is lost, other code interrupts a thread, a
call's body runs, or a response is given and the body runs. Every body run meets an arbitrary
environment: any policy reply, any collector outcomes, a readable or unreadable graph state, a
tool that may raise. `Protocol.Run` starts from the empty system. A watchdog sweep is a series of
ticks and responses (`Watchdog.SweepIsRun`), so every result about runs covers runs with sweeps.

The host is modelled by the contract the middleware relies on: an interrupt without a response
stores its payload (over the old one) and suspends the body; with a response it returns it; a
completed call loses its interrupt and response and is never run again. Histories that exist
only to be reasoned about are the tool executions (`execs`), the policy replies (`replies`) and
the cause in `Done`.

Hypotheses that results name:

- `Good(es, t)`: calls carry a thread id without `:` and a tool-call id, both non-empty; and no
  interrupt of other code on t's thread carries t's hold id. `Domain.HoldIdCollides` shows why the
  colon matters.
- `Never(cfg, slip, es, t)`: no pass over t *rebuilds* its hold, or *moves* its deadline, or
  *strays*. A pass rebuilds when the call is held, memory has no entry, the graph's state cannot be
  read, and policy answers with a review again; it moves the deadline if the fresh hold expires at
  another moment; it strays if it is answered with a hold whose deadline is no time, so that
  resolving raises and memory keeps a hold that was never stored. `Deadlines.ReadableNever`: a state
  that stays readable rules all three out. `Deadlines.OneDeadlineExactly` shows that the second is
  exactly what one deadline per hold needs.
- a response that is itself a hold (it decodes as one) brings its own deadline; results that need
  it say that the approving response is not one. `Lateness.StoredDeadlineGoverns` says exactly when
  it matters.
- `Recoverable`, `SameRule`, `Pure`: a pass that has to ask about a held call again can read the
  state; gets a review under the stored hold's rule; gets the same result, evidence included, as
  every other pass that asked, up to the audit id. `Steady`: policy, when asked about the call, says
  review always or never.

Where code and documentation differ, the model follows the code:

- docs/review-holds.md says an expired hold never resolves to approval, whatever fails, and that a
  resume payload cannot change the deadline. Both fail. `Lateness.ExpiredHoldRuns` says exactly when
  an answer to an expired hold runs the tool, `Lateness.UnansweredPassMoves` exactly when an
  unanswered pass moves the deadline before, and `Lateness.LateCauses` that nothing else makes a
  call run late. The four ways, each with its run: the approval finds memory lost and the state
  unreadable (middleware.py lines 219-233 and 411-415, `LateByUnreadableAnswer`); an unanswered pass
  does, and stores a fresh deadline (`LateByUnreadablePass`); the response is itself a hold with a
  later deadline (line 437, `LateByOwnDeadline`); an answer that cannot be resolved leaves a fresh
  hold in memory (lines 416 and 437-439, `LateByStray`). `FirstRun` to `FourthRun` write the four
  out with values.
- `authorize` is documented never to raise; the membership test raises on a decision that is an
  array or an object. See `Opa.Classified`.
- The data model says a second response to a resolved hold returns the recorded outcome; the code
  keeps nothing after resolving, so no such claim is made.

## Model

| member | source | states |
|---|---|---|
| Review.ApprovalSpelled | agentcontrol/adapters/langgraph/review.py:130-193 | in time, a hold resolves to approved exactly for text (the answer, or its decision) that is blanks, the seven letters of the word each in either case, blanks, with the blanks listed one by one; to rejected for all else |
| Text.ParseIntText | agentcontrol/adapters/langgraph/review.py:125-126 | the text form of a time loses nothing |
| Domain.HoldIdInjective | agentcontrol/core/types.py:165-168 | colon-free intents share a hold id exactly when they name the same thread and call, absent or empty counting as `-` |
| Domain.HoldIdCollides | agentcontrol/core/types.py:168 | every thread id with a colon shares a hold id with another thread |
| Domain.ThreadOfId | agentcontrol/core/control_plane.py:180 | splitting a hold id gives the thread back exactly when the thread id has no colon |
| Domain.GroupEvidence | agentcontrol/core/types.py:176-178 | in the policy input every signal reads as its last written value, and nothing else appears |
| Opa.Classified | agentcontrol/providers/policy/opa.py:52-146 | raises exactly on an array or object decision; every other reply gives a valid result, available exactly when the reply decides a verdict, else the fail mode's verdict with no rule |
| Opa.AnswerTells | agentcontrol/providers/policy/opa.py:90-146 | the answer to a deciding reply, field by field: verdict, reason or the word if it gives none, rule, audit id, window, evidence, and no outage mark |
| Opa.AuditIdOnly | agentcontrol/providers/policy/opa.py:92-101 | the audit id of a reply is the audit id of the result, none if it says nothing, and reaches nothing else |
| Opa.Provider.AuthorizeReply | agentcontrol/providers/policy/opa.py:52-101 | the answer does not depend on the warning flag; the warning is given exactly on the first reply that names a decision without an audit id |
| Review.RoundTrip | agentcontrol/adapters/langgraph/review.py:56-89 | decoding an encoded hold gives it back |
| Review.Reencode | agentcontrol/adapters/langgraph/review.py:56-89 | whatever payload a hold came from, encoding it again loses nothing |
| Review.BuildHoldDeadline | agentcontrol/adapters/langgraph/review.py:109-127 | a hold is keyed by its call and expires one window after the request; a zero window means the configured one |
| Review.ApprovalParsed | agentcontrol/adapters/langgraph/review.py:130-147 | the same responses, character by character, are the ones that normalise to approve |
| Review.ReasonExact | agentcontrol/adapters/langgraph/review.py:165-207 | what a resolved result says: the missed deadline; or the decision, the actor the answer names, and policy's reason for an approval, the reviewer's for a rejection |
| Review.ResolveExact | agentcontrol/adapters/langgraph/review.py:150-207 | approved exactly when in time and approving, timed out exactly when late, rejected otherwise; allow exactly for approved; provider, evidence, rule and audit id kept; never marked as an outage |
| Review.TimeoutFinal | agentcontrol/adapters/langgraph/review.py:96-98 | a hold that timed out times out at every later moment under any response |
| Lateness.ResumeRunsExactly | agentcontrol/adapters/langgraph/middleware.py:373-449 | answering a held call runs the tool exactly if the pass comes to review, the answer approves, and the deadline it is resolved against has not passed; the execution rests on that answer and deadline |
| Lateness.ResumeEndsExactly | agentcontrol/adapters/langgraph/middleware.py:437-449 | an answer that comes to review ends the call: timed out if late, approved or rejected by what it says; only a deadline that is no time leaves it open |
| Lateness.StoredDeadlineGoverns | agentcontrol/adapters/langgraph/middleware.py:437-438 | for a call held in memory the stored deadline alone decides, whenever the answer comes, exactly if the answer does not approve, is no hold itself, has the same deadline, or both have passed |
| Lateness.LateByOwnDeadline | agentcontrol/adapters/langgraph/middleware.py:437-438 | a run in which nothing is lost and an approval that carries a copy of the hold with a later deadline runs the tool late |
| Spans.DecisionShown | agentcontrol/core/otel.py:228-246 | on every finished span: the decision by its word, provider, reason and outage mark; rule, audit id and fail mode exactly when there is one |
| Spans.CallShown | agentcontrol/core/otel.py:198-215 | on every finished span: operation, tool and agent; call, tool type and thread exactly when known |
| Spans.ContextShown | agentcontrol/core/otel.py:201-221 | on every finished span: trust by its word and enforcement; source, resource and orphan mark exactly when there is one |
| Spans.ReviewShown | agentcontrol/core/otel.py:189-195 | on every finished span: review state by its word and hold id exactly for a review, with deadline and replay mark exactly when set |
| Spans.ErrorShown | agentcontrol/core/otel.py:113-118 | on every finished span: exactly the record's error type |
| Spans.ExtrasShown | agentcontrol/core/otel.py:205-240 | on every finished span: the tool's description and the latency of the decision exactly when given |
| Telemetry.EvidenceKeptApart | agentcontrol/core/otel.py:175-196 | evidence attributes never overwrite the record's own attributes, nor the reverse |
| Telemetry.ViewsAgreeExactly | agentcontrol/core/otel.py:248-255 | policy input and span show the same last value of every signal under its written-out key, scalars as they are, for all evidence, exactly when no collector name extends another by a dot |
| Telemetry.DotFreeApart | agentcontrol/core/semconv.py:118-120 | dot-free collector names meet that condition |
| Telemetry.BuildSpanAttributes | agentcontrol/core/otel.py:108-255 | filling the attributes block by block gives the specified span |
| Cells.ScanFindsOwn | agentcontrol/adapters/langgraph/middleware.py:234-238 | scanning a thread's interrupts finds the call's own hold among all others, or none if it has none, as long as no other code's interrupt carries its id |
| Locality.PassLocal | agentcontrol/adapters/langgraph/middleware.py:180-449 | a pass over one call leaves every other call's view as it was, and is the reference pass over its own view unless other code poses as its hold |
| Locality.RunLocal | agentcontrol/adapters/langgraph/middleware.py:180-465 | the whole system, seen from any call, runs that call's reference semantics |
| Locality.NonInterference | agentcontrol/adapters/langgraph/middleware.py:451-465 | deleting all passes and responses of other calls from a run changes nothing a call can see of itself |
| Locality.PassGrows | agentcontrol/core/otel.py:81-162 | a pass only adds records and executions, and only of its own call |
| Histories.EndingsExplained | agentcontrol/adapters/langgraph/middleware.py:296-333 | exactly why every call ended, in every run with no further hypothesis: the last reply, the outage, or the response and its moment; one execution if it ran, none otherwise |
| Histories.FactsDecide | agentcontrol/adapters/langgraph/middleware.py:296-333 | no two endings have the same facts, so the ending is no label of its own |
| Histories.EndingTraced | agentcontrol/adapters/langgraph/middleware.py:180-449 | every ending is traced to its events: the pass that ended the call and its reply, or an earlier pass answered with a review, the response given after it and not replaced, and the pass that resolved it |
| Histories.CapabilitiesRespected | agentcontrol/adapters/langgraph/middleware.py:275-292 | calls are held or closed by review only where capabilities are absent or have human approval, denied only where they are absent or can block |
| Histories.AskingActs | agentcontrol/adapters/langgraph/middleware.py:187-333 | what a pass that asks must do in any reachable state: allow runs the tool and ends the call, deny ends it, review holds it, a reply that decides nothing ends it by the fail mode, each if the adapter can; otherwise nothing comes of it |
| Histories.Provenance | agentcontrol/adapters/langgraph/middleware.py:308-333 | a tool ran only if the provider was asked on that very pass and decided allow (or, fail-open only, nothing), or was asked on an earlier pass and decided review with an integer window, an approving response was given after that and not replaced, and the tool ran in time |
| Histories.AuditDecodes | agentcontrol/core/otel.py:175-196 | the fold over a call's records gives its checkpoint status, cause included, in every reachable state |
| Accounts.SpansDecode | agentcontrol/core/otel.py:175-269 | folding a call's finished spans, read by their words alone, gives its checkpoint status, cause included, in every reachable state |
| Accounts.ClosingTells | agentcontrol/adapters/langgraph/middleware.py:296-333 | every closing record in full, and the message the agent reads, traced to the pass that ended the call and the pass whose answer it was decided on: result, reason, state, deadline, replay mark, error or the handler's exception |
| Accounts.RepliesOnRecord | agentcontrol/core/otel.py:228-246 | a call that ran or was denied on policy's word has the reason, rule, audit id and evidence of the last reply on its closing record; one that ended by review has its rule, audit id and evidence |
| Accounts.OpeningTells | agentcontrol/adapters/langgraph/middleware.py:419-427 | the first record of a held call is the answer of the first pass that got a review, in full, with the deadline |
| Accounts.PendingTells | agentcontrol/adapters/langgraph/middleware.py:396-435 | every pending record of every run, replayed or not, was written by a pass that asked policy, and says in full what that pass was answered |
| Accounts.StoredHoldTells | agentcontrol/adapters/langgraph/review.py:109-127 | while no pass rebuilt it, the stored payload shows the tool and resource of the call, and the reason, rule, moment and deadline of the first pass that got a review and held it |
| Accounts.HoldStable | agentcontrol/adapters/langgraph/middleware.py:395-416 | while no pass rebuilds it, a stored hold stays the same in every field, in the checkpoint and in memory, until its call is over |
| Histories.OneClosingRecord | agentcontrol/core/otel.py:81-162 | a decided call has exactly one closing record, its last; an undecided one none |
| Histories.DenialCauses | agentcontrol/core/otel.py:257-269 | over all denial records of any run the error type says exactly what the provider last replied, or how and when the review was answered, traced to the events |
| Deadlines.PendingAgreesWithCheckpoint | agentcontrol/adapters/langgraph/middleware.py:115-117 | unless a pass strayed, an entry is filed under its own hold id, holds a review, and is the hold in the checkpoint |
| Deadlines.TrackedUntilResolved | agentcontrol/adapters/langgraph/middleware.py:400-439 | without losses a call has an entry exactly while it has a stored interrupt |
| Deadlines.OneDeadlineExactly | agentcontrol/adapters/langgraph/middleware.py:395-416 | the records of a call name one deadline over a whole run if and only if no pass moved it |
| Deadlines.DeadlineStable | agentcontrol/adapters/langgraph/middleware.py:395-416 | if no pass moved it, once a hold is stored its payload, entry, resolution and every record carry one deadline in all later states |
| Deadlines.FixedOnFirstPass | agentcontrol/adapters/langgraph/middleware.py:411-427 | the deadline is the moment of the first pass answered with a review plus the window decoded on it |
| Deadlines.RecordCounts | agentcontrol/adapters/langgraph/middleware.py:396-449 | if no hold is rebuilt: one fresh pending record per held call, one closing record per decided call, nothing else for a call never held |
| Deadlines.UnansweredPassIsSilent | agentcontrol/adapters/langgraph/middleware.py:401-409 | an unanswered pass over a held call adds no record and keeps the stored hold |
| Deadlines.RecordedDeadlineKept | agentcontrol/adapters/langgraph/middleware.py:313-322 | whatever went wrong before, an execution after an approval that is no hold itself is no later than the deadline its own record shows |
| Deadlines.ApprovalSafety | agentcontrol/adapters/langgraph/middleware.py:373-449 | a call policy never allows outright runs only after a response that was given to it and approves, no later than the moment of its first pass plus the window decoded there, if no pass moved the deadline and the response is no hold itself |
| Lateness.ExpiredHoldRuns | agentcontrol/adapters/langgraph/middleware.py:206-238 | answering an expired hold runs the tool exactly if the pass comes to review, the answer approves, and it is itself a hold still open, or memory has another hold still open, or memory and state are both gone and the window is not negative |
| Lateness.UnansweredPassMoves | agentcontrol/adapters/langgraph/middleware.py:401-418 | an unanswered pass changes the stored deadline exactly if memory has no entry, the state is unreadable, policy answers with an enforceable review, and the new deadline differs |
| Lateness.LateCauses | agentcontrol/adapters/langgraph/middleware.py:395-449 | a call runs after the deadline in its first record only if a pass moved the deadline or the approval is itself a hold |
| Lateness.LateByUnreadableAnswer | agentcontrol/adapters/langgraph/middleware.py:219-233 | a run that is late because the approval finds memory lost and the state unreadable |
| Lateness.LateByUnreadablePass | agentcontrol/adapters/langgraph/middleware.py:411-418 | a run that is late because an unanswered pass did, though the approving pass can read everything |
| Lateness.LateByStray | agentcontrol/adapters/langgraph/middleware.py:411-439 | a run that is late because an answer that could not be resolved left a fresh hold in memory |
| MemoryLoss.LossChangesNoCall | agentcontrol/adapters/langgraph/middleware.py:187-204 | if passes that ask again read the state and get a review under the same rule, taking all losses out of a run changes no completion, message, deadline, stored hold or execution of a call, nor the verdicts, rules, states, deadlines and error types on its records |
| MemoryLoss.LossChangesNoLog | agentcontrol/adapters/langgraph/middleware.py:395-435 | with a pure policy, without replayed pending records and replay marks the whole log is that of the run without losses, in order |
| Watchdog.SweepIsRun | agentcontrol/core/control_plane.py:167-181 | a sweep is a series of ticks and responses that keeps every hypothesis on runs |
| Watchdog.SweepNeverApproves | agentcontrol/core/control_plane.py:170-181 | a sweep adds no approved execution, wherever each sentinel is delivered and whatever the resumed pass meets |
| Watchdog.Drains | agentcontrol/core/control_plane.py:177-181 | a sweep ends every hold expired at its start as timed out without running the tool, and leaves holds still open at its end, and untracked calls, as they were |
| Watchdog.BoundedLiveness | agentcontrol/core/control_plane.py:167-198 | with sweeps at most p apart, a tracked call is over once the clock passes its deadline plus p |
| Bundle.OneValue | policies/tool_authorization.rego:10-57 | the rules conflict exactly when injection fires with the destructive or the production rule; which decision they give otherwise, over score, trust, tool and resource as written |
| Bundle.ScoreReads | policies/tool_authorization.rego:23-37 | the score policy reads is the last one collected, zero if there is none |
| Bundle.DestructiveVerdict | policies/tool_authorization.rego:40-47 | through the client the destructive tool is denied, except exactly under fail-open with the injection rule firing too |
| Bundle.DestructiveNeverRuns | policies/tool_authorization.rego:26-57 | under fail-closed the destructive tool never runs, in any run, whatever else than a decision the engine may send |
| Bundle.ProductionNeedsApproval | policies/tool_authorization.rego:49-57 | under fail-closed a production write runs only after an approving response was given to it, in time |
| Middleware.Recorder.RecordDecision | agentcontrol/core/otel.py:81-118 | appends exactly the specified record, error type by branch |
| Middleware.AgentMiddleware.RecoverHoldFromState | agentcontrol/adapters/langgraph/middleware.py:206-238 | the loop over the snapshot returns the first payload that decodes to this hold id |
| Middleware.AgentMiddleware.CollectEvidence | agentcontrol/adapters/langgraph/middleware.py:240-273 | each answering collector's item at the place its rank among them gives it, and nothing else; nothing on a budget overrun |
| Middleware.AgentMiddleware.PendingHolds | agentcontrol/adapters/langgraph/middleware.py:124-128 | a snapshot of the tracked holds |
| Middleware.AgentMiddleware.Decide | agentcontrol/adapters/langgraph/middleware.py:180-204 | leaves the system and the decision the protocol specifies |
| Middleware.AgentMiddleware.RunReview | agentcontrol/adapters/langgraph/middleware.py:373-449 | leaves the system and the resolution the protocol specifies, in its three cases |
| Middleware.AgentMiddleware.WrapToolCall | agentcontrol/adapters/langgraph/middleware.py:161-178 | one hook call is one pass of the protocol |
| Middleware.ControlPlane.SweepOnce | agentcontrol/core/control_plane.py:170-181 | one turn of the loop is a sweep over the snapshot that looks at every tracked hold, in any order, with any time between, each resume delivered and met as it may be |

## Left out

- LangGraph and LangChain internals, checkpoint serialisation and `aget_state` transport: only the interrupt contract above.
- Concurrency within a pass (`_BackgroundLoop`, locks, asyncio): each pass is atomic. `_aact` repeats `_act` and is modelled once.
- HTTP and httpx exceptions: one transport outcome per request. Exceptions other than httpx's own would escape `authorize` and are not modelled.
- The OpenTelemetry SDK, exporters and span status: a record is a value appended to a log, and its span a map of attributes. Latency and the tool's output are inputs of the span, not of the log.
- ISO-8601 text: times are whole seconds written in decimal, and `datetime` overflow is ignored.
- `str()` and JSON text of floats, arrays and objects: fixed text; JSON escapes are not written. Lower-casing covers ASCII letters, the only ones that lower to a letter of either decision word.
- Values quoted with `repr` are quoted with `str`: an unrecognised answer in a rejection's reason. Unavailable reasons keep their kind, not their detail, and the injection rule's reason not its numbers.
- `intent.py` resolvers, adapter start-up checks and configuration validation: calls arrive as intents, and a configured fail mode is one of the two.
- The passthrough without a policy provider: it runs the tool and records nothing.
- A host that runs a call again after its handler raised: an approved call that raised counts as completed.
- A watchdog loop ended by a deadline that is not a time: reachable holds always have one (`Histories.RunKeeps`), so the sweep treats such a hold as open.
- The user, the task text and the trace in the policy input document: only its evidence block is built, and policy may reply anything.
- Non-numeric injection scores: the bundle's results are stated for numeric scores only.
- Recorded-outcome replay, a health probe at start-up and `strict_policy_scan`: described in the specifications without code.
