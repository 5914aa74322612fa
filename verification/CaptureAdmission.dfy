/** Reconciling the observer, audit, dispatch, HTTP and component records of one governed invocation. */
module CaptureAdmission {
  import opened Options
  import opened Observer

  /** Identifiers, tools, argument documents, modes and wire requests; digests are the values they digest. */
  type Token(==, !new)

  const MAX_ATTEMPTS := 3

  datatype Decision = Deny | ReviewRequired | Permit
  datatype Policy = Policy(decision: Decision, reasons: seq<string>)

  datatype Binding = Binding(
    requestId: Token, tool: Token, arguments: Token, facts: Token, policy: Policy, context: Token)

  datatype ReturnStatus = ReturnedPolicy | NoBinding | Issued | VerifiedConsumed | UnknownOrException

  /** One governance_return row. */
  datatype Row = Row(logged: Logged, requestId: Option<Token>, status: ReturnStatus, policy: Option<Policy>,
                     binding: Option<Binding>)

  datatype Stage = Proposed | PolicyChecked | ExecutionStarted | Completed
  datatype DispatchState = NotDispatched | DispatchAttempted | RequestConfirmed | DispatchUnknown
  datatype ResponseState = NoResponse | ResponseReceived | TransportError
  datatype RetryDecision = RetryNone | RetryAllowed | RetryBlocked

  datatype Code =
    | NotFound | UpstreamRejected | MalformedResponse | ResponseTooLarge
    | Timeout | NetworkError | UpstreamUnavailable | OtherCode

  /** The retry_reason text: the fixed ones, and a lower-cased error code. */
  datatype Reason = Success | TimedOut | NetworkFailed | RetryableStatus | CodeOf(code: Code) | OtherReason

  datatype Attempt = Attempt(attempt: int, maxAttempts: int, elapsed: real,
                             dispatch: DispatchState, response: ResponseState, exception: Option<string>,
                             status: Option<int>, received: bool, retryAfter: Option<real>,
                             retry: RetryDecision, reason: Reason)

  datatype EnvelopeStatus = Succeeded | Error | Held
  datatype Verification = NotRequired | Passed | OtherVerification

  /** The response the client really received. */
  datatype Envelope = Envelope(requestId: Token, tool: Token, status: EnvelopeStatus, hasResult: bool,
                               errors: seq<Code>, verified: bool, decision: Decision, executed: bool,
                               dispatch: DispatchState, response: ResponseState,
                               attemptCount: int, attemptMetadata: bool)

  datatype Audit = Audit(stage: Stage, requestId: Option<Token>, time: int)

  datatype Proposal = Proposal(tool: Token, arguments: Token, request: Token)
  datatype PolicyRecord = PolicyRecord(facts: Token, factTool: Token, factRequest: Token, factArguments: Option<Token>,
                                       policy: Policy, bindingIssued: bool)
  datatype StartRecord = StartRecord(tool: Token, authority: Policy, binding: Binding)
  datatype Completion = Completion(response: Envelope, executed: bool, attempts: seq<Attempt>, attemptMetadata: bool,
                                   verification: Verification)

  datatype Entry = Entry(index: int, tool: Token, query: Token, time: int)
  datatype HttpAttempt = HttpAttempt(index: int, wire: Token, mode: Token, time: int)
  datatype Finish =
    | HttpFinish(index: int, status: Option<int>, error: Option<string>, mode: Token, elapsed: real, time: int)
    | AdapterFinish(index: int, tool: Token, error: Option<string>, mode: Token, elapsed: real, time: int)

  datatype Capture = Capture(rows: seq<Row>, seal: Seal, sealTime: int, audit: seq<Audit>, proposal: Proposal,
                             policyRecord: PolicyRecord, started: StartRecord, completed: Completion,
                             dispatch: seq<Entry>, backend: seq<HttpAttempt>, components: seq<Finish>,
                             provenance: Option<Token>)

  /** What the caller observed itself, and the adapter's fixed protocol. */
  datatype Expected = Expected(request: Option<Token>, tool: Option<Token>, arguments: Option<Token>,
                               requestId: Option<Token>, envelope: Option<Envelope>,
                               typed: (Token, Token) -> bool, wireOf: (Token, Token) -> Token, modes: set<Token>)

  datatype Verdict = Rejected | NoGovernanceActivity | PreDispatchHeld | BoundBackendCaptured

  // ---- One attempt record ----

  predicate TerminalShape(a: Attempt) {
    && 1 <= a.attempt <= a.maxAttempts <= MAX_ATTEMPTS
    && a.elapsed >= 0.0 && (a.retryAfter.Some? ==> a.retryAfter.value >= 0.0)
    && a.dispatch != NotDispatched
    && (a.status.Some? ==> 100 <= a.status.value <= 599)
  }

  predicate TerminalSemantics(a: Attempt, http: Finish, adapter: Finish, e: Envelope)
    requires http.HttpFinish?
  {
    && (a.retry == RetryAllowed ==> a.attempt < a.maxAttempts && a.reason != Success)
    && if a.reason == Success then
         && a.exception.None? && a.retry == RetryNone && a.retryAfter.None?
         && a.received && a.dispatch == RequestConfirmed && a.response == ResponseReceived
         && a.status == Some(200) && http.status == Some(200) && http.error.None?
       else
         && a.exception.Some? && e.status == Error && !e.hasResult && adapter.error.Some?
         && FailedSemantics(a, e.errors)
  }

  predicate FailedSemantics(a: Attempt, codes: seq<Code>) {
    var terminalRetry := if a.attempt < a.maxAttempts then RetryAllowed else RetryBlocked;
    if a.response == TransportError then
      && ((a.reason == TimedOut && Timeout in codes) || (a.reason == NetworkFailed && NetworkError in codes))
      && a.retry == terminalRetry && a.retryAfter.None?
    else if a.reason == RetryableStatus then
      && a.response == ResponseReceived && a.received && a.exception == Some("AdapterError")
      && a.status.Some? && (a.status.value == 429 || a.status.value >= 500) && UpstreamUnavailable in codes
      && a.retry == terminalRetry
    else
      && a.exception == Some("AdapterError") && a.reason.CodeOf?
      && a.reason.code in {NotFound, UpstreamRejected, MalformedResponse, ResponseTooLarge} && a.reason.code in codes
      && a.retry == RetryNone && a.retryAfter.None?
  }

  // ---- The whole capture ----

  function Logs(rows: seq<Row>): seq<Logged> { seq(|rows|, i requires 0 <= i < |rows| => rows[i].logged) }

  function InPhase(rows: seq<Row>, p: Phase): (r: seq<Row>)
    ensures forall x | x in r :: x in rows && x.logged.phase == p
  {
    if rows == [] then [] else (if rows[0].logged.phase == p then [rows[0]] else []) + InPhase(rows[1..], p)
  }

  predicate Ordered(times: seq<int>) { forall i, j | 0 <= i < j < |times| :: times[i] <= times[j] }

  predicate Agrees(wanted: Option<Token>, actual: Token) { wanted.None? || wanted.value == actual }

  predicate PolicyReturn(row: Row) { row.status == ReturnedPolicy && row.binding.None? && row.policy.Some? }

  /** Everything that is checked of an invocation whatever its decision. */
  predicate Consistent(c: Capture, x: Expected) { InvocationChecks(c, x) && EvaluationChecks(c) }

  /** One request on all channels, in the stages of one audit. */
  predicate InvocationChecks(c: Capture, x: Expected) {
    && c.rows != [] && c.rows[0].requestId.Some?
    && var id := c.rows[0].requestId;
    && (forall r | r in c.rows :: r.requestId == id) && (x.requestId.None? || x.requestId == id)
    && (forall a | a in c.audit :: a.requestId == id)
    && Stages(c.audit) in {[Proposed, PolicyChecked, Completed], [Proposed, PolicyChecked, ExecutionStarted, Completed]}
    && Ordered(Times(c.audit)) && c.audit[|c.audit| - 1].time <= c.sealTime
    && Agrees(x.request, c.proposal.request) && Agrees(x.tool, c.proposal.tool)
    && Agrees(x.arguments, c.proposal.arguments)
    && c.policyRecord.factTool == c.proposal.tool && c.policyRecord.factRequest == c.proposal.request
    && c.policyRecord.factArguments
       == (if x.typed(c.proposal.tool, c.proposal.arguments) then Some(c.proposal.arguments) else None)
    && x.envelope == Some(c.completed.response)
    && c.completed.response.requestId == id.value && c.completed.response.tool == c.proposal.tool
    && c.completed.executed == c.completed.response.executed
  }

  /** The rows of the governance functions, and the one policy they returned. */
  predicate EvaluationChecks(c: Capture) {
    && (forall p | p in {Preflight, Issuance, BindingIssue} :: |InPhase(c.rows, p)| == 1)
    && |InPhase(c.rows, BindingConsume)| <= 1 && |InPhase(c.rows, PostResult)| <= 1
    && (forall r | r in c.rows && r.logged.phase in {Preflight, Issuance, PostResult} :: PolicyReturn(r))
    && var preflight, issuance, issued :=
         InPhase(c.rows, Preflight)[0], InPhase(c.rows, Issuance)[0], InPhase(c.rows, BindingIssue)[0];
    && issuance.policy == issued.policy == Some(c.policyRecord.policy)
    && preflight.logged.index < issued.logged.index < issuance.logged.index
  }

  function Stages(audit: seq<Audit>): seq<Stage> { seq(|audit|, i requires 0 <= i < |audit| => audit[i].stage) }

  function Times(audit: seq<Audit>): seq<int> { seq(|audit|, i requires 0 <= i < |audit| => audit[i].time) }

  predicate HeldChecks(c: Capture)
    requires |InPhase(c.rows, BindingIssue)| == 1
  {
    var issued := InPhase(c.rows, BindingIssue)[0];
    && |c.audit| == 3 && InPhase(c.rows, BindingConsume) == [] && InPhase(c.rows, PostResult) == []
    && issued.status == NoBinding && issued.binding.None? && !c.policyRecord.bindingIssued
    && c.dispatch == [] && c.backend == [] && c.components == []
    && c.completed.response.decision == c.policyRecord.policy.decision && !c.completed.response.executed
    && c.completed.response.dispatch == NotDispatched && c.completed.response.attemptCount == 0
    && c.completed.attempts == [] && c.completed.verification == NotRequired
  }

  predicate BindingChecks(c: Capture, x: Expected)
    requires c.rows != [] && c.rows[0].requestId.Some?
    requires |InPhase(c.rows, BindingIssue)| == 1 && |InPhase(c.rows, Issuance)| == 1
  {
    && x.typed(c.proposal.tool, c.proposal.arguments) && |InPhase(c.rows, BindingConsume)| == 1 && |c.audit| == 4
    && var issued, consumed := InPhase(c.rows, BindingIssue)[0], InPhase(c.rows, BindingConsume)[0];
    && issued.status == Issued && issued.binding.Some?
    && consumed.status == VerifiedConsumed && consumed.policy.None? && consumed.binding == issued.binding
    && c.started.binding == issued.binding.value && c.policyRecord.bindingIssued
    && consumed.logged.index > InPhase(c.rows, Issuance)[0].logged.index
    && issued.binding.value == Binding(c.rows[0].requestId.value, c.proposal.tool, c.proposal.arguments,
                                       c.policyRecord.facts, c.policyRecord.policy, issued.binding.value.context)
    && c.started.tool == c.proposal.tool && c.started.authority == c.policyRecord.policy
    && c.completed.response.executed && c.completed.verification == Passed
  }

  predicate BackendChecks(c: Capture, x: Expected) {
    && |c.dispatch| == |c.backend| == 1 && |c.components| == 2 && |c.audit| == 4
    && c.components[0].HttpFinish? && c.components[1].AdapterFinish?
    && var entry, sent, http, adapter := c.dispatch[0], c.backend[0], c.components[0], c.components[1];
    && entry.index == 1 && entry.tool == c.proposal.tool && entry.query == c.proposal.arguments
    && sent.index == 1 && sent.wire == x.wireOf(c.proposal.tool, c.proposal.arguments) && sent.mode in x.modes
    && http.index == 1 && adapter.index == 1 && adapter.tool == c.proposal.tool
    && http.mode == adapter.mode == sent.mode && http.elapsed >= 0.0 && adapter.elapsed >= 0.0
    && Ordered([c.audit[2].time, entry.time, sent.time, http.time, adapter.time, c.audit[3].time, c.sealTime])
    && (c.provenance.Some? ==> c.provenance.value == x.wireOf(c.proposal.tool, c.proposal.arguments))
  }

  predicate OutcomeChecks(c: Capture)
    requires |c.components| == 2 && c.components[0].HttpFinish?
  {
    var http, adapter, e := c.components[0], c.components[1], c.completed.response;
    && |c.completed.attempts| == 1 && TerminalShape(c.completed.attempts[0])
    && var a := c.completed.attempts[0];
    && a.dispatch == e.dispatch && a.response == e.response
    && a.attempt == 1 && a.maxAttempts == 1 && a.status == http.status
    && e.attemptCount == 1 && e.attemptMetadata && c.completed.attemptMetadata
    && (if a.received then
          a.dispatch == RequestConfirmed && a.response in {ResponseReceived, TransportError} && a.status.Some?
        else
          && a.dispatch == DispatchUnknown && a.response in {NoResponse, TransportError}
          && a.status.None? && a.exception.Some?)
    && TerminalSemantics(a, http, adapter, e)
    && (adapter.error.Some? ==> e.status == Error && !e.hasResult && !e.verified && e.errors != [])
    && (if http.error.None? then http.status == Some(200) && a.received
        else a.exception == http.error && adapter.error.Some? && e.status == Error && !e.hasResult)
  }

  predicate PostResultChecks(c: Capture)
    requires |InPhase(c.rows, BindingConsume)| == 1
  {
    var post, decision := InPhase(c.rows, PostResult), c.completed.response.decision;
    if post == [] then decision == Permit
    else
      && post[0].logged.index > InPhase(c.rows, BindingConsume)[0].logged.index
      && post[0].policy.Some? && post[0].policy.value.decision == decision
  }

  function Admit(c: Capture, x: Expected): Verdict {
    if !CaptureIntegrity(Logs(c.rows), c.seal) || !CoverageAdmitted(Logs(c.rows), c.seal) then Rejected
    else if c.rows == [] then
      if c.audit == [] && c.dispatch == [] && c.backend == [] && c.components == []
         && x.requestId.None? && x.envelope.None?
      then NoGovernanceActivity else Rejected
    else if !Consistent(c, x) then Rejected
    else if c.policyRecord.policy.decision != Permit then
      if HeldChecks(c) then PreDispatchHeld else Rejected
    else if BindingChecks(c, x) && BackendChecks(c, x) && OutcomeChecks(c) && PostResultChecks(c) then
      BoundBackendCaptured
    else Rejected
  }

  // ---- What admission means ----

  /** The one attempt of a bound capture succeeded on every channel. */
  predicate FullSuccess(c: Capture)
    requires |c.completed.attempts| == 1 && |c.components| == 2 && c.components[0].HttpFinish?
  {
    var a, http := c.completed.attempts[0], c.components[0];
    && a.received && a.dispatch == RequestConfirmed && a.response == ResponseReceived
    && a.status == Some(200) && http.status == Some(200)
    && a.exception.None? && http.error.None? && a.retry == RetryNone && a.retryAfter.None?
  }

  /** An admitted bound capture is a full success or an error without result, never both; a result is released only by
      the former, and never beside an adapter error. */
  lemma BoundOutcomes(c: Capture, x: Expected)
    requires Admit(c, x) == BoundBackendCaptured
    ensures |c.completed.attempts| == 1 && |c.components| == 2 && c.components[0].HttpFinish?
    ensures var a, e := c.completed.attempts[0], c.completed.response;
      && (FullSuccess(c) <==> a.reason == Success)
      && (FullSuccess(c) <==> a.exception.None?)
      && (e.hasResult ==> FullSuccess(c) && c.components[1].error.None?)
      && (!FullSuccess(c) ==> e.status == Error && !e.hasResult && c.components[1].error.Some? && e.errors != [])
  {
  }

  /** The client's envelope reports an error and releases nothing. */
  predicate ErrorOnly(e: Envelope, adapter: Finish) {
    adapter.error.Some? && e.status == Error && !e.hasResult && !e.verified && e.errors != []
  }

  /** Whether the attempt heard anything back, in every field that says so. */
  predicate Heard(a: Attempt, yes: bool) {
    a.received == yes && a.status.Some? == yes && a.dispatch == (if yes then RequestConfirmed else DispatchUnknown)
  }

  predicate EndsBrokenOff(a: Attempt, http: Finish, codes: seq<Code>) {
    && a.response == TransportError && (Heard(a, true) || Heard(a, false)) && a.exception.Some?
    && ((a.reason == TimedOut && Timeout in codes) || (a.reason == NetworkFailed && NetworkError in codes))
    && a.retry == RetryBlocked && a.retryAfter.None?
    && (http.error == a.exception || (http.error.None? && a.status == Some(200)))
  }

  predicate EndsUnavailable(a: Attempt, http: Finish, codes: seq<Code>) {
    && a.response == ResponseReceived && Heard(a, true) && a.reason == RetryableStatus && UpstreamUnavailable in codes
    && (a.status.value == 429 || a.status.value >= 500) && a.retry == RetryBlocked
    && a.exception == Some("AdapterError") == http.error
  }

  predicate EndsRefused(a: Attempt, http: Finish, codes: seq<Code>) {
    && ((a.response == ResponseReceived && Heard(a, true)) || (a.response == NoResponse && Heard(a, false)))
    && a.reason in {CodeOf(NotFound), CodeOf(UpstreamRejected), CodeOf(MalformedResponse), CodeOf(ResponseTooLarge)}
    && a.reason.code in codes && a.retry == RetryNone && a.retryAfter.None? && a.exception == Some("AdapterError")
    && (http.error == a.exception || (http.error.None? && a.status == Some(200)))
  }

  /** The five ways a bound attempt can end and be admitted. In particular an unavailable upstream is admitted only if
      the HTTP component itself named the adapter's error, and only a status 200 can end without an HTTP error. */
  predicate KnownEnding(c: Capture)
    requires |c.completed.attempts| == 1 && |c.components| == 2 && c.components[0].HttpFinish?
  {
    var a, http, adapter, e := c.completed.attempts[0], c.components[0], c.components[1], c.completed.response;
    || (a.reason == Success && FullSuccess(c) && adapter.error.None?)
    || (a.reason == Success && FullSuccess(c) && ErrorOnly(e, adapter))
    || (ErrorOnly(e, adapter) && EndsBrokenOff(a, http, e.errors))
    || (ErrorOnly(e, adapter) && EndsUnavailable(a, http, e.errors))
    || (ErrorOnly(e, adapter) && EndsRefused(a, http, e.errors))
  }

  /** Fields that must agree between attempt, envelope and HTTP record however the attempt ended. */
  predicate SameFields(c: Capture)
    requires |c.completed.attempts| == 1 && |c.components| == 2 && c.components[0].HttpFinish?
  {
    var a, e := c.completed.attempts[0], c.completed.response;
    && a.attempt == a.maxAttempts == e.attemptCount == 1 && e.attemptMetadata && c.completed.attemptMetadata
    && a.elapsed >= 0.0 && (a.retryAfter.Some? ==> a.retryAfter.value >= 0.0)
    && (a.status.Some? ==> 100 <= a.status.value <= 599)
    && a.dispatch == e.dispatch && a.response == e.response && a.status == c.components[0].status
  }

  /** The scattered outcome checks amount to these endings: all of them, and no others. */
  lemma OutcomeTable(c: Capture)
    requires |c.completed.attempts| == 1 && |c.components| == 2 && c.components[0].HttpFinish?
    ensures OutcomeChecks(c) <==> SameFields(c) && KnownEnding(c)
  {
  }

  /** Nothing admitted was ever to be retried, and reception is confirmed exactly when it happened. */
  lemma BoundNeverRetries(c: Capture, x: Expected)
    requires Admit(c, x) == BoundBackendCaptured
    ensures |c.completed.attempts| == 1
    ensures var a := c.completed.attempts[0];
      && a.retry != RetryAllowed
      && (a.received <==> a.dispatch == RequestConfirmed) && (!a.received <==> a.dispatch == DispatchUnknown)
      && (a.retry == RetryBlocked <==> a.response == TransportError || a.reason == RetryableStatus)
  {
  }

  /** The call numbers of an admitted bound capture stand in one order. */
  lemma BoundCallOrder(c: Capture, x: Expected)
    requires Admit(c, x) == BoundBackendCaptured
    ensures |InPhase(c.rows, Preflight)| == |InPhase(c.rows, BindingIssue)| == |InPhase(c.rows, Issuance)| == 1
    ensures |InPhase(c.rows, BindingConsume)| == 1
    ensures InPhase(c.rows, Preflight)[0].logged.index < InPhase(c.rows, BindingIssue)[0].logged.index
          < InPhase(c.rows, Issuance)[0].logged.index < InPhase(c.rows, BindingConsume)[0].logged.index
    ensures if InPhase(c.rows, PostResult) == [] then c.completed.response.decision == Permit
            else PostResultRules(c, InPhase(c.rows, PostResult))
  {
    hide CaptureIntegrity, CoverageAdmitted, OutcomeChecks, BackendChecks, Ordered, InPhase;
  }

  /** One evaluation after the consumption decided what was released. */
  predicate PostResultRules(c: Capture, post: seq<Row>) {
    && |post| == 1 && |InPhase(c.rows, BindingConsume)| == 1
    && post[0].logged.index > InPhase(c.rows, BindingConsume)[0].logged.index
    && post[0].policy.Some? && post[0].policy.value.decision == c.completed.response.decision
  }

  /** The consumed binding carries one permitting authority from the issuance to the wire. */
  lemma BoundAuthority(c: Capture, x: Expected)
    requires Admit(c, x) == BoundBackendCaptured
    ensures |InPhase(c.rows, BindingConsume)| == |InPhase(c.rows, BindingIssue)| == 1
    ensures |c.dispatch| == |c.backend| == 1
    ensures var used := InPhase(c.rows, BindingConsume)[0].binding;
      && used.Some? && used == InPhase(c.rows, BindingIssue)[0].binding
      && used.value.policy.decision == Permit && used.value.policy == c.started.authority
      && used.value == c.started.binding
      && used.value.facts == c.policyRecord.facts && used.value.policy == c.policyRecord.policy
      && x.envelope.Some? && used.value.requestId == x.envelope.value.requestId
      && used.value.tool == c.dispatch[0].tool && used.value.arguments == c.dispatch[0].query
      && c.backend[0].wire == x.wireOf(used.value.tool, used.value.arguments)
  {
    hide CaptureIntegrity, CoverageAdmitted, OutcomeChecks, PostResultChecks, Ordered, InPhase;
  }

  lemma {:induction false} RowsByPhase(rows: seq<Row>)
    requires forall r | r in rows :: r.logged.phase in ALLOWED
    ensures |rows| == |InPhase(rows, Preflight)| + |InPhase(rows, Issuance)| + |InPhase(rows, BindingIssue)|
                    + |InPhase(rows, BindingConsume)| + |InPhase(rows, PostResult)|
  {
    if rows != [] { RowsByPhase(rows[1..]); }
  }

  lemma RowIsNumbered(rows: seq<Row>, r: Row)
    requires r in rows
    ensures r.logged.index in Indices(Logs(rows))
  {
    var i :| 0 <= i < |rows| && rows[i] == r;
    IndexMembers(Logs(rows));
    assert Logs(rows)[i].index == r.logged.index;
  }

  lemma FirstIsNumbered(rows: seq<Row>, p: Phase)
    requires InPhase(rows, p) != [] && Indices(Logs(rows)) == Range(|rows|)
    ensures 1 <= InPhase(rows, p)[0].logged.index <= |rows|
  {
    assert InPhase(rows, p)[0] in InPhase(rows, p);
    RowIsNumbered(rows, InPhase(rows, p)[0]);
  }

  lemma BoundIsSealed(c: Capture, x: Expected)
    requires Admit(c, x) == BoundBackendCaptured
    ensures Indices(Logs(c.rows)) == Range(|c.rows|)
    ensures forall r | r in c.rows :: r.logged.phase in ALLOWED
  {
    hide Consistent, BindingChecks, BackendChecks, OutcomeChecks, PostResultChecks, Indices, Range;
    CoveredPhases(c);
  }

  /** The numbers of an admitted bound capture leave no room: it has exactly the four rows preflight 1, issue 2,
      issuance 3 and consumption 4, and perhaps a fifth, the post-result evaluation 5. */
  lemma BoundRows(c: Capture, x: Expected)
    requires Admit(c, x) == BoundBackendCaptured
    ensures |c.rows| == 4 + |InPhase(c.rows, PostResult)| <= 5
    ensures |InPhase(c.rows, Preflight)| == 1 && InPhase(c.rows, Preflight)[0].logged.index == 1
    ensures |InPhase(c.rows, BindingIssue)| == 1 && InPhase(c.rows, BindingIssue)[0].logged.index == 2
    ensures |InPhase(c.rows, Issuance)| == 1 && InPhase(c.rows, Issuance)[0].logged.index == 3
    ensures |InPhase(c.rows, BindingConsume)| == 1 && InPhase(c.rows, BindingConsume)[0].logged.index == 4
    ensures InPhase(c.rows, PostResult) != [] ==> InPhase(c.rows, PostResult)[0].logged.index == 5
  {
    hide Admit, InPhase, Logs, Indices, Range;
    BoundCallOrder(c, x);
    BoundIsSealed(c, x);
    RowsByPhase(c.rows);
    FirstIsNumbered(c.rows, Preflight);
    FirstIsNumbered(c.rows, BindingConsume);
    if InPhase(c.rows, PostResult) != [] { FirstIsNumbered(c.rows, PostResult); }
  }

  /** A capture held before dispatch shows no trace of execution on any channel. */
  lemma HeldMeansUntouched(c: Capture, x: Expected)
    requires Admit(c, x) == PreDispatchHeld
    ensures c.dispatch == [] && c.backend == [] && c.components == [] && c.completed.attempts == []
    ensures InPhase(c.rows, BindingConsume) == [] && |c.rows| == 3
    ensures forall r | r in c.rows :: r.status != VerifiedConsumed && r.binding.None?
    ensures x.envelope.Some? && !x.envelope.value.executed && x.envelope.value.dispatch == NotDispatched
    ensures x.envelope.value.decision != Permit
  {
    CoveredPhases(c);
    HeldRows(c.rows);
  }

  lemma HeldRows(rows: seq<Row>)
    requires forall r | r in rows :: r.logged.phase in ALLOWED
    requires |InPhase(rows, Preflight)| == |InPhase(rows, Issuance)| == |InPhase(rows, BindingIssue)| == 1
    requires InPhase(rows, BindingConsume) == [] && InPhase(rows, PostResult) == []
    requires forall r | r in rows && r.logged.phase in {Preflight, Issuance, PostResult} :: PolicyReturn(r)
    requires InPhase(rows, BindingIssue)[0].status == NoBinding && InPhase(rows, BindingIssue)[0].binding.None?
    ensures |rows| == 3 && forall r | r in rows :: r.status != VerifiedConsumed && r.binding.None?
  {
    RowsByPhase(rows);
    hide InPhase;
    forall r | r in rows ensures r.status != VerifiedConsumed && r.binding.None? { HeldRow(rows, r); }
  }

  lemma HeldRow(rows: seq<Row>, r: Row)
    requires r in rows && r.logged.phase in ALLOWED
    requires |InPhase(rows, BindingIssue)| == 1
    requires InPhase(rows, BindingConsume) == []
    requires r.logged.phase in {Preflight, Issuance, PostResult} ==> PolicyReturn(r)
    requires InPhase(rows, BindingIssue)[0].status == NoBinding && InPhase(rows, BindingIssue)[0].binding.None?
    ensures r.status != VerifiedConsumed && r.binding.None?
  {
    hide InPhase;
    Members(rows);
    assert r in InPhase(rows, r.logged.phase);
  }

  lemma CoveredPhases(c: Capture)
    requires CoverageAdmitted(Logs(c.rows), c.seal)
    ensures forall r | r in c.rows :: r.logged.phase in ALLOWED
  {
    forall r | r in c.rows ensures r.logged.phase in ALLOWED {
      var i :| 0 <= i < |c.rows| && c.rows[i] == r;
      assert Logs(c.rows)[i] in Logs(c.rows);
    }
  }

  lemma {:induction false} Members(rows: seq<Row>)
    ensures forall r | r in rows :: r in InPhase(rows, r.logged.phase)
  {
    if rows != [] {
      Members(rows[1..]);
      assert rows == [rows[0]] + rows[1..];
    }
  }

  // ---- Admission, field by field ----

  lemma AuditReads(audit: seq<Audit>)
    ensures |Stages(audit)| == |Times(audit)| == |audit|
    ensures forall i | 0 <= i < |audit| :: Stages(audit)[i] == audit[i].stage && Times(audit)[i] == audit[i].time
  {
  }

  /** Silence is admitted exactly when nothing was recorded anywhere and the caller saw nothing. */
  lemma SilentExactly(c: Capture, x: Expected)
    ensures Admit(c, x) == NoGovernanceActivity <==>
      && c.rows == [] && c.audit == [] && c.dispatch == [] && c.backend == [] && c.components == []
      && x.requestId.None? && x.envelope.None?
      && c.seal.pass && c.seal.intact && c.seal.active == c.seal.calls == c.seal.matched == 0 && c.seal.failures == []
      && forall p | p in ALLOWED :: Covered(c.seal.coverage, p) == 0
  {
    hide Consistent, HeldChecks, BindingChecks, OutcomeChecks, BackendChecks, PostResultChecks;
    if c.rows == [] {
      assert Logs(c.rows) == [] && Indices([]) == Range(0);
      assert forall p :: CountPhase([], p) == 0;
    }
  }

  /** The observer's log is complete: one passing seal over exactly these rows, numbered 1..n, of known phases only. */
  ghost predicate Sealed(c: Capture) {
    && c.seal.pass && c.seal.intact && c.seal.active == 0 && c.seal.failures == []
    && c.seal.calls == c.seal.matched == |c.rows|
    && (forall r | r in c.rows :: 1 <= r.logged.index <= |c.rows|)
    && (forall k | 1 <= k <= |c.rows| :: HasNumber(c.rows, k))
    && (forall r | r in c.rows :: r.logged.phase != Other)
    && (forall p | p != Other :: Covered(c.seal.coverage, p) == |InPhase(c.rows, p)|)
  }

  ghost predicate HasNumber(rows: seq<Row>, k: nat) { exists r :: r in rows && r.logged.index == k }

  lemma LogsAppend(rows: seq<Row>, r: Row)
    ensures Logs(rows + [r]) == Logs(rows) + [r.logged]
  {
  }

  lemma {:induction false} InPhaseAppends(rows: seq<Row>, r: Row, p: Phase)
    ensures InPhase(rows + [r], p) == InPhase(rows, p) + if r.logged.phase == p then [r] else []
  {
    if rows == [] {
      assert rows + [r] == [r] && [r][1..] == [];
    } else {
      assert (rows + [r])[1..] == rows[1..] + [r];
      InPhaseAppends(rows[1..], r, p);
    }
  }

  lemma {:induction false} PhaseCounts(rows: seq<Row>, p: Phase)
    ensures CountPhase(Logs(rows), p) == |InPhase(rows, p)|
  {
    if rows != [] {
      var init, r := rows[..|rows| - 1], rows[|rows| - 1];
      assert rows == init + [r];
      PhaseCounts(init, p);
      InPhaseAppends(init, r, p);
      LogsAppend(init, r);
      LogStep(Logs(init), r.logged, p);
      hide InPhase, CountPhase;
    }
  }

  lemma NumberedRows(rows: seq<Row>)
    ensures Indices(Logs(rows)) == Range(|rows|) <==>
      && (forall r | r in rows :: 1 <= r.logged.index <= |rows|)
      && (forall k | 1 <= k <= |rows| :: HasNumber(rows, k))
  {
    hide Indices;
    IndexMembers(Logs(rows));
    assert forall i | 0 <= i < |rows| :: Logs(rows)[i].index == rows[i].logged.index;
    forall k ensures k in Indices(Logs(rows)) <==> HasNumber(rows, k) {
      if HasNumber(rows, k) {
        var r :| r in rows && r.logged.index == k;
        RowIsNumbered(rows, r);
      }
      if k in Indices(Logs(rows)) {
        var i :| 0 <= i < |Logs(rows)| && Logs(rows)[i].index == k;
        assert rows[i] in rows;
      }
    }
    hide Range;
    forall r | r in rows ensures r.logged.index in Indices(Logs(rows)) { RowIsNumbered(rows, r); }
  }

  lemma KnownPhases(rows: seq<Row>)
    ensures (forall e | e in Logs(rows) :: e.phase in ALLOWED) <==> (forall r | r in rows :: r.logged.phase in ALLOWED)
  {
    assert forall i | 0 <= i < |rows| :: Logs(rows)[i] == rows[i].logged;
    forall r | r in rows ensures r.logged in Logs(rows) {
      var i :| 0 <= i < |rows| && rows[i] == r;
      assert Logs(rows)[i] == r.logged;
    }
  }

  lemma CoverageExactly(c: Capture)
    ensures CoverageAdmitted(Logs(c.rows), c.seal) <==>
      && (forall r | r in c.rows :: r.logged.phase != Other)
      && (forall p | p != Other :: Covered(c.seal.coverage, p) == |InPhase(c.rows, p)|)
  {
    KnownPhases(c.rows);
    forall p ensures CountPhase(Logs(c.rows), p) == |InPhase(c.rows, p)| { PhaseCounts(c.rows, p); }
    assert forall p :: p in ALLOWED <==> p != Other;
    hide CountPhase, InPhase, Logs, Covered;
  }

  lemma SealedExactly(c: Capture)
    ensures CaptureIntegrity(Logs(c.rows), c.seal) && CoverageAdmitted(Logs(c.rows), c.seal) <==> Sealed(c)
  {
    NumberedRows(c.rows);
    CoverageExactly(c);
    assert |Logs(c.rows)| == |c.rows|;
    hide CoverageAdmitted, Indices, Range, InPhase, HasNumber, Logs, Covered;
  }

  /** One invocation, told alike on every channel. */
  ghost predicate Governed(c: Capture, x: Expected, id: Token) {
    && c.rows != [] && (forall r | r in c.rows :: r.requestId == Some(id))
    && (forall a | a in c.audit :: a.requestId == Some(id))
    && (x.requestId.Some? ==> x.requestId.value == id)
    && x.envelope == Some(c.completed.response) && c.completed.response.requestId == id
    && c.completed.response.tool == c.proposal.tool && c.completed.executed == c.completed.response.executed
    && (x.request.Some? ==> x.request.value == c.proposal.request)
    && (x.tool.Some? ==> x.tool.value == c.proposal.tool)
    && (x.arguments.Some? ==> x.arguments.value == c.proposal.arguments)
    && c.policyRecord.factTool == c.proposal.tool && c.policyRecord.factRequest == c.proposal.request
    && c.policyRecord.factArguments
       == (if x.typed(c.proposal.tool, c.proposal.arguments) then Some(c.proposal.arguments) else None)
    && 3 <= |c.audit| <= 4 && c.audit[0].stage == Proposed && c.audit[1].stage == PolicyChecked
    && c.audit[|c.audit| - 1].stage == Completed && (|c.audit| == 4 ==> c.audit[2].stage == ExecutionStarted)
    && (forall i, j | 0 <= i < j < |c.audit| :: c.audit[i].time <= c.audit[j].time)
    && c.audit[|c.audit| - 1].time <= c.sealTime
  }

  ghost predicate Told(c: Capture, x: Expected) { exists id :: Governed(c, x, id) }

  /** One evaluation before the issue and one for it, whose policy is the one recorded. */
  ghost predicate Evaluated(c: Capture) {
    && c.rows != [] && c.rows[0].requestId.Some?
    && |InPhase(c.rows, Preflight)| == |InPhase(c.rows, Issuance)| == |InPhase(c.rows, BindingIssue)| == 1
    && |InPhase(c.rows, PostResult)| <= 1
    && (forall r | r in c.rows && r.logged.phase in {Preflight, Issuance, PostResult} ::
          r.status == ReturnedPolicy && r.binding.None? && r.policy.Some?)
    && var preflight, issued, issuance :=
         InPhase(c.rows, Preflight)[0], InPhase(c.rows, BindingIssue)[0], InPhase(c.rows, Issuance)[0];
    && issuance.policy == issued.policy == Some(c.policyRecord.policy)
    && preflight.logged.index < issued.logged.index < issuance.logged.index
  }

  lemma StagesExactly(audit: seq<Audit>)
    ensures var full := [Proposed, PolicyChecked, ExecutionStarted, Completed];
      Stages(audit) in {[Proposed, PolicyChecked, Completed], full} <==>
      && 3 <= |audit| <= 4 && audit[0].stage == Proposed && audit[1].stage == PolicyChecked
      && audit[|audit| - 1].stage == Completed && (|audit| == 4 ==> audit[2].stage == ExecutionStarted)
    ensures Ordered(Times(audit)) <==> forall i, j | 0 <= i < j < |audit| :: audit[i].time <= audit[j].time
  {
    AuditReads(audit);
    var stages := Stages(audit);
    if |audit| == 3 { assert stages == [stages[0], stages[1], stages[2]]; }
    if |audit| == 4 { assert stages == [stages[0], stages[1], stages[2], stages[3]]; }
    assert forall i | 0 <= i < |audit| :: Times(audit)[i] == audit[i].time;
  }

  lemma InvocationExactly(c: Capture, x: Expected)
    ensures InvocationChecks(c, x) <==> Told(c, x)
  {
    StagesExactly(c.audit);
    hide Stages, Times, Ordered;
    if InvocationChecks(c, x) {
      assert c.rows[0] in c.rows;
      assert Governed(c, x, c.rows[0].requestId.value);
    }
    if id :| Governed(c, x, id) { assert c.rows[0] in c.rows; }
  }

  lemma EvaluationExactly(c: Capture)
    requires c.rows != [] && c.rows[0].requestId.Some?
    ensures EvaluationChecks(c) <==> Evaluated(c) && |InPhase(c.rows, BindingConsume)| <= 1
  {
    hide InPhase;
  }

  lemma ConsistentExactly(c: Capture, x: Expected)
    ensures Consistent(c, x) <==> Told(c, x) && Evaluated(c) && |InPhase(c.rows, BindingConsume)| <= 1
  {
    InvocationExactly(c, x);
    if InvocationChecks(c, x) { EvaluationExactly(c); }
    hide Told, EvaluationChecks;
  }

  /** A capture is held exactly when its invocation is told alike everywhere and nothing was bound or executed. */
  lemma HeldExactly(c: Capture, x: Expected)
    ensures Admit(c, x) == PreDispatchHeld <==>
      && Sealed(c) && Told(c, x) && Evaluated(c)
      && c.policyRecord.policy.decision != Permit && c.completed.response.decision == c.policyRecord.policy.decision
      && |c.audit| == 3 && InPhase(c.rows, BindingConsume) == [] && InPhase(c.rows, PostResult) == []
      && InPhase(c.rows, BindingIssue)[0].status == NoBinding && InPhase(c.rows, BindingIssue)[0].binding.None?
      && !c.policyRecord.bindingIssued && c.dispatch == [] && c.backend == [] && c.components == []
      && !c.completed.response.executed && c.completed.response.dispatch == NotDispatched
      && c.completed.response.attemptCount == 0 && c.completed.attempts == []
      && c.completed.verification == NotRequired
  {
    SealedExactly(c);
    ConsistentExactly(c, x);
    hide CaptureIntegrity, CoverageAdmitted, Sealed, Consistent, Told, InPhase;
    hide BindingChecks, BackendChecks, OutcomeChecks, PostResultChecks;
  }

  /** The permission that was issued, consumed and recorded is one, and is about this proposal under this policy. */
  ghost predicate Authorised(c: Capture, x: Expected)
    requires |InPhase(c.rows, BindingIssue)| == |InPhase(c.rows, Issuance)| == 1 && c.rows != []
  {
    && c.policyRecord.policy.decision == Permit && x.typed(c.proposal.tool, c.proposal.arguments)
    && |InPhase(c.rows, BindingConsume)| == 1
    && var issued, consumed := InPhase(c.rows, BindingIssue)[0], InPhase(c.rows, BindingConsume)[0];
    && issued.status == Issued && consumed.status == VerifiedConsumed && consumed.policy.None?
    && issued.binding == consumed.binding == Some(c.started.binding)
    && var b := c.started.binding;
    && c.rows[0].requestId == Some(b.requestId) && b.tool == c.proposal.tool && b.arguments == c.proposal.arguments
    && b.facts == c.policyRecord.facts && b.policy == c.policyRecord.policy
    && c.policyRecord.bindingIssued && c.started.tool == c.proposal.tool && c.started.authority == c.policyRecord.policy
    && InPhase(c.rows, Issuance)[0].logged.index < consumed.logged.index
    && c.completed.response.executed && c.completed.verification == Passed
  }

  /** One request in and out of the backend, in order. */
  ghost predicate ExchangedOnce(c: Capture, x: Expected) {
    && |c.dispatch| == |c.backend| == 1 && |c.components| == 2 && |c.audit| == 4
    && c.components[0].HttpFinish? && c.components[1].AdapterFinish?
    && var entry, sent, http, adapter := c.dispatch[0], c.backend[0], c.components[0], c.components[1];
    && entry.index == sent.index == http.index == adapter.index == 1
    && entry.tool == adapter.tool == c.proposal.tool && entry.query == c.proposal.arguments
    && sent.wire == x.wireOf(c.proposal.tool, c.proposal.arguments)
    && sent.mode == http.mode == adapter.mode && sent.mode in x.modes
    && http.elapsed >= 0.0 && adapter.elapsed >= 0.0
    && c.audit[2].time <= entry.time <= sent.time <= http.time <= adapter.time <= c.audit[3].time <= c.sealTime
    && (c.provenance.Some? ==> c.provenance.value == sent.wire)
  }

  lemma BindingExactly(c: Capture, x: Expected)
    requires Evaluated(c) && c.policyRecord.policy.decision == Permit
    ensures BindingChecks(c, x) <==> Authorised(c, x) && |c.audit| == 4
  {
    hide InPhase;
  }

  lemma BackendExactly(c: Capture, x: Expected)
    ensures BackendChecks(c, x) <==> ExchangedOnce(c, x)
  {
    if |c.dispatch| == |c.backend| == 1 && |c.components| == 2 && |c.audit| == 4 {
      var times := [c.audit[2].time, c.dispatch[0].time, c.backend[0].time, c.components[0].time, c.components[1].time,
                    c.audit[3].time, c.sealTime];
      SevenInOrder(times);
      hide Ordered;
    }
  }

  lemma SevenInOrder(times: seq<int>)
    requires |times| == 7
    ensures Ordered(times) <==>
      times[0] <= times[1] <= times[2] <= times[3] <= times[4] <= times[5] <= times[6]
  {
  }

  /** A capture is bound exactly when its invocation is told alike everywhere, one permission runs through it, the
      backend was entered once for it, its one attempt ended in a known way, and the released decision is the last. */
  lemma BoundExactly(c: Capture, x: Expected)
    ensures Admit(c, x) == BoundBackendCaptured <==>
      && Sealed(c) && Told(c, x) && Evaluated(c) && Authorised(c, x) && ExchangedOnce(c, x)
      && |c.completed.attempts| == 1 && SameFields(c) && KnownEnding(c)
      && (if InPhase(c.rows, PostResult) == [] then c.completed.response.decision == Permit
          else
            && InPhase(c.rows, BindingConsume)[0].logged.index < InPhase(c.rows, PostResult)[0].logged.index
            && InPhase(c.rows, PostResult)[0].policy.Some?
            && InPhase(c.rows, PostResult)[0].policy.value.decision == c.completed.response.decision)
  {
    SealedExactly(c);
    ConsistentExactly(c, x);
    BackendExactly(c, x);
    if Evaluated(c) && c.policyRecord.policy.decision == Permit { BindingExactly(c, x); }
    hide CaptureIntegrity, CoverageAdmitted, Sealed, Consistent, Told, InPhase, BackendChecks, BindingChecks;
    hide HeldChecks, Ordered;
    if ExchangedOnce(c, x) { EndingExactly(c); }
    hide OutcomeChecks, SameFields, KnownEnding;
  }

  lemma EndingExactly(c: Capture)
    requires |c.components| == 2 && c.components[0].HttpFinish?
    ensures OutcomeChecks(c) <==> |c.completed.attempts| == 1 && SameFields(c) && KnownEnding(c)
  {
    if |c.completed.attempts| == 1 { OutcomeTable(c); }
    hide SameFields, KnownEnding;
  }

  // ---- A capture that is admitted and releases a result ----

  function Released(t: Token): Capture {
    var p := Policy(Permit, []);
    var b := Binding(t, t, t, t, p, t);
    var a := Attempt(1, 1, 0.0, RequestConfirmed, ResponseReceived, None, Some(200), true, None, RetryNone, Success);
    var e := Envelope(t, t, Succeeded, true, [], true, Permit, true, RequestConfirmed, ResponseReceived, 1, true);
    Capture(
      [Row(Logged(Preflight, 1, true), Some(t), ReturnedPolicy, Some(p), None),
       Row(Logged(Issuance, 3, true), Some(t), ReturnedPolicy, Some(p), None),
       Row(Logged(BindingIssue, 2, true), Some(t), Issued, Some(p), Some(b)),
       Row(Logged(BindingConsume, 4, true), Some(t), VerifiedConsumed, None, Some(b))],
      SealRecord(true, true, 4, 4, 0,
                 map[Preflight := 1, Issuance := 1, BindingIssue := 1, BindingConsume := 1], 0, []),
      0,
      [Audit(Proposed, Some(t), 0), Audit(PolicyChecked, Some(t), 0), Audit(ExecutionStarted, Some(t), 0),
       Audit(Completed, Some(t), 0)],
      Proposal(t, t, t), PolicyRecord(t, t, t, Some(t), p, true), StartRecord(t, p, b),
      Completion(e, true, [a], true, Passed),
      [Entry(1, t, t, 0)], [HttpAttempt(1, t, t, 0)],
      [HttpFinish(1, Some(200), None, t, 0.0, 0), AdapterFinish(1, t, None, t, 0.0, 0)], None)
  }

  function Watching(t: Token): Expected {
    Expected(None, None, None, None, Some(Released(t).completed.response), (_, _) => true, (_, _) => t, {t})
  }

  /** Admission is not empty: this capture is admitted with its result. */
  lemma ReleasedIsAdmitted(t: Token)
    ensures Admit(Released(t), Watching(t)) == BoundBackendCaptured && Released(t).completed.response.hasResult
  {
    hide CaptureIntegrity, CoverageAdmitted, InPhase, Consistent;
    hide BindingChecks, BackendChecks, OutcomeChecks, PostResultChecks;
    ReleasedPhases(t);
    ReleasedSeal(t);
    ReleasedConsistent(t);
    ReleasedBound(t);
  }

  lemma ReleasedConsistent(t: Token)
    ensures Consistent(Released(t), Watching(t))
  {
    hide InPhase;
    var c := Released(t);
    ReleasedPhases(t);
    assert Stages(c.audit) == [Proposed, PolicyChecked, ExecutionStarted, Completed];
    assert Times(c.audit) == [0, 0, 0, 0];
  }

  lemma ReleasedBound(t: Token)
    ensures |InPhase(Released(t).rows, BindingIssue)| == |InPhase(Released(t).rows, Issuance)| == 1
    ensures |InPhase(Released(t).rows, BindingConsume)| == 1
    ensures BindingChecks(Released(t), Watching(t)) && BackendChecks(Released(t), Watching(t))
    ensures OutcomeChecks(Released(t)) && PostResultChecks(Released(t))
  {
    hide InPhase;
    ReleasedPhases(t);
  }

  function Pick(r: Row, p: Phase): seq<Row> { if r.logged.phase == p then [r] else [] }

  lemma InPhaseFrom(rows: seq<Row>, i: nat, p: Phase)
    requires i <= |rows|
    ensures InPhase(rows[i..], p) == if i == |rows| then [] else Pick(rows[i], p) + InPhase(rows[i + 1..], p)
  {
    if i < |rows| { assert rows[i..][1..] == rows[i + 1..]; }
  }

  lemma InPhaseOfFour(rows: seq<Row>, p: Phase)
    requires |rows| == 4
    ensures InPhase(rows, p) == Pick(rows[0], p) + (Pick(rows[1], p) + (Pick(rows[2], p) + Pick(rows[3], p)))
  {
    hide InPhase, Pick;
    assert rows[0..] == rows;
    InPhaseFrom(rows, 0, p);
    InPhaseFrom(rows, 1, p);
    InPhaseFrom(rows, 2, p);
    InPhaseFrom(rows, 3, p);
    InPhaseFrom(rows, 4, p);
    assert Pick(rows[3], p) + [] == Pick(rows[3], p);
  }

  lemma ReleasedPhases(t: Token)
    ensures var rows := Released(t).rows;
      && InPhase(rows, Preflight) == [rows[0]] && InPhase(rows, Issuance) == [rows[1]]
      && InPhase(rows, BindingIssue) == [rows[2]] && InPhase(rows, BindingConsume) == [rows[3]]
      && InPhase(rows, PostResult) == []
  {
    hide InPhase;
    var rows := Released(t).rows;
    InPhaseOfFour(rows, Preflight);
    InPhaseOfFour(rows, Issuance);
    InPhaseOfFour(rows, BindingIssue);
    InPhaseOfFour(rows, BindingConsume);
    InPhaseOfFour(rows, PostResult);
  }

  lemma LogStep(events: seq<Logged>, l: Logged, p: Phase)
    ensures Indices(events + [l]) == Indices(events) + {l.index}
    ensures CountPhase(events + [l], p) == CountPhase(events, p) + if l.phase == p then 1 else 0
  {
    assert (events + [l])[..|events + [l]| - 1] == events;
  }

  lemma LogsOfFour(logs: seq<Logged>, p: Phase)
    requires |logs| == 4
    ensures Indices(logs) == {logs[0].index, logs[1].index, logs[2].index, logs[3].index}
    ensures CountPhase(logs, p) == (if logs[0].phase == p then 1 else 0) + (if logs[1].phase == p then 1 else 0)
                                 + (if logs[2].phase == p then 1 else 0) + (if logs[3].phase == p then 1 else 0)
  {
    LogStep([], logs[0], p);
    assert Indices([]) == {} && CountPhase([], p) == 0;
    hide Indices, CountPhase;
    LogStep([logs[0]], logs[1], p);
    LogStep([logs[0], logs[1]], logs[2], p);
    LogStep([logs[0], logs[1], logs[2]], logs[3], p);
    assert [] + [logs[0]] == [logs[0]] && [logs[0]] + [logs[1]] == [logs[0], logs[1]];
    assert [logs[0], logs[1]] + [logs[2]] == [logs[0], logs[1], logs[2]];
    assert [logs[0], logs[1], logs[2]] + [logs[3]] == logs;
  }

  lemma ReleasedSeal(t: Token)
    ensures CaptureIntegrity(Logs(Released(t).rows), Released(t).seal)
    ensures CoverageAdmitted(Logs(Released(t).rows), Released(t).seal)
  {
    hide Indices, CountPhase, Range;
    var logs := Logs(Released(t).rows);
    forall p | p in ALLOWED ensures Covered(Released(t).seal.coverage, p) == CountPhase(logs, p) {
      LogsOfFour(logs, p);
    }
    LogsOfFour(logs, Preflight);
    assert Indices(logs) == Range(4);
  }

  // ---- A capture that is held before dispatch ----

  /** The invocation of a proposal that the policy sent to review. */
  function HeldCapture(t: Token): Capture {
    var p := Policy(ReviewRequired, []);
    var e := Envelope(t, t, Held, false, [], false, ReviewRequired, false, NotDispatched, NoResponse, 0, true);
    Capture(
      [Row(Logged(Preflight, 1, true), Some(t), ReturnedPolicy, Some(p), None),
       Row(Logged(Issuance, 3, true), Some(t), ReturnedPolicy, Some(p), None),
       Row(Logged(BindingIssue, 2, true), Some(t), NoBinding, Some(p), None)],
      SealRecord(true, true, 3, 3, 0, map[Preflight := 1, Issuance := 1, BindingIssue := 1], 0, []),
      0,
      [Audit(Proposed, Some(t), 0), Audit(PolicyChecked, Some(t), 0), Audit(Completed, Some(t), 0)],
      Proposal(t, t, t), PolicyRecord(t, t, t, Some(t), p, false), StartRecord(t, p, Binding(t, t, t, t, p, t)),
      Completion(e, false, [], true, NotRequired), [], [], [], None)
  }

  function HeldExpected(t: Token): Expected {
    Expected(None, None, None, None, Some(HeldCapture(t).completed.response), (_, _) => true, (_, _) => t, {t})
  }

  lemma HeldIsAdmitted(t: Token)
    ensures Admit(HeldCapture(t), HeldExpected(t)) == PreDispatchHeld
  {
    hide CaptureIntegrity, CoverageAdmitted, InPhase, Consistent, HeldChecks;
    HeldPhases(t);
    HeldSeal(t);
    HeldConsistent(t);
  }

  lemma InPhaseOfThree(rows: seq<Row>, p: Phase)
    requires |rows| == 3
    ensures InPhase(rows, p) == Pick(rows[0], p) + (Pick(rows[1], p) + Pick(rows[2], p))
  {
    hide InPhase, Pick;
    assert rows[0..] == rows;
    InPhaseFrom(rows, 0, p);
    InPhaseFrom(rows, 1, p);
    InPhaseFrom(rows, 2, p);
    InPhaseFrom(rows, 3, p);
    assert Pick(rows[2], p) + [] == Pick(rows[2], p);
  }

  lemma HeldPhases(t: Token)
    ensures var rows := HeldCapture(t).rows;
      && InPhase(rows, Preflight) == [rows[0]] && InPhase(rows, Issuance) == [rows[1]]
      && InPhase(rows, BindingIssue) == [rows[2]]
      && InPhase(rows, BindingConsume) == [] && InPhase(rows, PostResult) == []
  {
    hide InPhase;
    var rows := HeldCapture(t).rows;
    InPhaseOfThree(rows, Preflight);
    InPhaseOfThree(rows, Issuance);
    InPhaseOfThree(rows, BindingIssue);
    InPhaseOfThree(rows, BindingConsume);
    InPhaseOfThree(rows, PostResult);
  }

  lemma HeldConsistent(t: Token)
    ensures Consistent(HeldCapture(t), HeldExpected(t))
    ensures |InPhase(HeldCapture(t).rows, BindingIssue)| == 1 && HeldChecks(HeldCapture(t))
  {
    hide InPhase;
    var c := HeldCapture(t);
    HeldPhases(t);
    assert Stages(c.audit) == [Proposed, PolicyChecked, Completed];
    assert Times(c.audit) == [0, 0, 0];
  }

  lemma LogsOfThree(logs: seq<Logged>, p: Phase)
    requires |logs| == 3
    ensures Indices(logs) == {logs[0].index, logs[1].index, logs[2].index}
    ensures CountPhase(logs, p) == (if logs[0].phase == p then 1 else 0) + (if logs[1].phase == p then 1 else 0)
                                 + (if logs[2].phase == p then 1 else 0)
  {
    LogStep([], logs[0], p);
    assert Indices([]) == {} && CountPhase([], p) == 0;
    hide Indices, CountPhase;
    LogStep([logs[0]], logs[1], p);
    LogStep([logs[0], logs[1]], logs[2], p);
    assert [] + [logs[0]] == [logs[0]] && [logs[0]] + [logs[1]] == [logs[0], logs[1]];
    assert [logs[0], logs[1]] + [logs[2]] == logs;
  }

  lemma HeldSeal(t: Token)
    ensures CaptureIntegrity(Logs(HeldCapture(t).rows), HeldCapture(t).seal)
    ensures CoverageAdmitted(Logs(HeldCapture(t).rows), HeldCapture(t).seal)
  {
    hide Indices, CountPhase, Range;
    var logs := Logs(HeldCapture(t).rows);
    forall p | p in ALLOWED ensures Covered(HeldCapture(t).seal.coverage, p) == CountPhase(logs, p) {
      LogsOfThree(logs, p);
    }
    LogsOfThree(logs, Preflight);
    assert Indices(logs) == Range(3);
  }
}
