/** The domain types: intents, evidence, results and the idempotency key of a hold
    (agentcontrol/core/types.py). */
module Domain {
  import opened Text
  import opened Json

  datatype Verdict = Allow | Deny | Review | Abstain

  datatype ReviewState = Pending | Approved | Rejected | TimedOut

  datatype FailMode = Closed | Open

  datatype Trust = Trusted | Untrusted | Unknown

  function VerdictText(v: Verdict): string {
    match v
    case Allow => "allow"
    case Deny => "deny"
    case Review => "review"
    case Abstain => "abstain"
  }

  function TrustText(t: Trust): string {
    match t
    case Trusted => "trusted"
    case Untrusted => "untrusted"
    case Unknown => "unknown"
  }

  datatype Evidence = Evidence(collector: string, signal: string, value: Json)

  datatype Intent = Intent(
    agent: string,
    tool: string,
    arguments: Json,
    traceId: string,
    spanId: string,
    resource: Option<string>,
    trust: Trust,
    source: Option<string>,
    toolCallId: Option<string>,
    threadId: Option<string>,
    toolType: Option<string>)

  /** The intent was built outside any trace: an id is all zeros, or empty. */
  predicate Orphaned(i: Intent) {
    (forall c :: c in i.traceId ==> c == '0') || (forall c :: c in i.spanId ==> c == '0')
  }

  // ---------------------------------------------------------------- hold key

  /** One tool call of one thread. */
  datatype Task = Task(thread: string, call: string)

  /** `value or '-'`. */
  function OrDash(o: Option<string>): string {
    if o.Some? && o.value != "" then o.value else "-"
  }

  function Key(i: Intent): Task {
    Task(OrDash(i.threadId), OrDash(i.toolCallId))
  }

  function IdOf(t: Task): string {
    t.thread + ":" + t.call
  }

  function HoldId(i: Intent): string {
    IdOf(Key(i))
  }

  predicate ColonFree(t: Task) {
    ':' !in t.thread
  }

  /** Intents the protocol can hold: both identifiers present, thread id without the separator. */
  predicate WellFormed(i: Intent) {
    && i.threadId.Some? && i.threadId.value != ""
    && i.toolCallId.Some? && i.toolCallId.value != ""
    && ColonFree(Key(i))
  }

  /** The same identifier, with absent, empty and '-' counting as one. */
  predicate SameName(a: Option<string>, b: Option<string>) {
    a == b || (a in {None, Some(""), Some("-")} && b in {None, Some(""), Some("-")})
  }

  /** Two colon-free intents share a hold id exactly when they name the same thread and the
      same call, counting absent, empty and '-' as the same name. */
  lemma HoldIdInjective(a: Intent, b: Intent)
    requires ColonFree(Key(a)) && ColonFree(Key(b))
    ensures HoldId(a) == HoldId(b) <==>
            SameName(a.threadId, b.threadId) && SameName(a.toolCallId, b.toolCallId)
  {
    if HoldId(a) == HoldId(b) {
      IdOfInjective(Key(a), Key(b));
    }
  }

  lemma IdOfInjective(a: Task, b: Task)
    requires ColonFree(a) && ColonFree(b)
    ensures IdOf(a) == IdOf(b) <==> a == b
  {
    if IdOf(a) == IdOf(b) {
      JoinInjective(a.thread, a.call, b.thread, b.call, ':');
    }
  }

  /** Every thread id that contains the separator shares a hold id with another thread. */
  lemma HoldIdCollides(head: string, tail: string, call: string)
    ensures var a, b := Task(head + ":" + tail, call), Task(head, tail + ":" + call);
            a != b && IdOf(a) == IdOf(b)
  {
    var a, b := Task(head + ":" + tail, call), Task(head, tail + ":" + call);
    assert |a.thread| > |b.thread|;
    assert head + ":" + tail + ":" + call == head + ":" + (tail + ":" + call);
  }

  /** `hold_id.split(":", 1)[0]`. */
  function ThreadOf(id: string): string {
    Before(id, ':')
  }

  /** Splitting a hold id gives the thread back exactly when the thread id has no colon. */
  lemma ThreadOfId(t: Task)
    ensures ThreadOf(IdOf(t)) == t.thread <==> ColonFree(t)
  {
    BeforeJoin(t.thread, ':', t.call);
    assert IdOf(t) == t.thread + [':'] + t.call;
  }

  // ---------------------------------------------------------------- results

  datatype ControlResult = ControlResult(
    verdict: Verdict,
    provider: string,
    reason: string,
    evidence: seq<Evidence>,
    policyId: Option<string>,
    decisionId: Json,
    unavailable: bool,
    failMode: Option<FailMode>,
    window: Option<int>)

  /** The invariants a result is refused without. */
  predicate ValidResult(r: ControlResult) {
    && r.verdict != Abstain
    && r.reason != ""
    && (r.unavailable ==> r.policyId.None? && r.failMode.Some?)
    && (r.verdict == Review ==> r.window.Some?)
  }

  /** A result without the audit id of the query that produced it. */
  function Anonymous(r: ControlResult): ControlResult {
    r.(decisionId := JNull)
  }

  // ---------------------------------------------------------------- policy input

  /** Evidence as policy reads it: collector, then signal, then value. */
  type Grouped = map<string, map<string, Json>>

  /** The last value written for a signal of a collector. */
  function LastValue(evidence: seq<Evidence>, collector: string, signal: string): Option<Json> {
    if evidence == [] then None
    else
      var e := evidence[|evidence| - 1];
      if e.collector == collector && e.signal == signal then Some(e.value)
      else LastValue(evidence[..|evidence| - 1], collector, signal)
  }

  function Signal(g: Grouped, collector: string, signal: string): Option<Json> {
    if collector in g && signal in g[collector] then Some(g[collector][signal]) else None
  }

  /** The evidence block of the policy input. Every signal reads as its last written value,
      and no other collector or signal appears. */
  method GroupEvidence(evidence: seq<Evidence>) returns (grouped: Grouped)
    ensures forall c, s :: Signal(grouped, c, s) == LastValue(evidence, c, s)
    ensures forall c :: c in grouped ==> grouped[c] != map[]
  {
    grouped := map[];
    for k := 0 to |evidence|
      invariant forall c, s :: Signal(grouped, c, s) == LastValue(evidence[..k], c, s)
      invariant forall c :: c in grouped ==> grouped[c] != map[]
    {
      var e := evidence[k];
      assert evidence[..k + 1][..k] == evidence[..k];
      var group := if e.collector in grouped then grouped[e.collector] else map[];
      grouped := grouped[e.collector := group[e.signal := e.value]];
      assert e.signal in grouped[e.collector];
    }
    assert evidence[..|evidence|] == evidence;
  }
}
