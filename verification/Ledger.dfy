/** The durable evaluation ledger as a value, and every operation of
    AttemptBudget as one serialised transaction on it.

    A call either commits, or commits and then raises (the three rejections that
    persist a stop), or raises and is rolled back, or is refused before the store
    is opened.  What a caller finally sees depends on the fate of the store
    operation itself, see Settle. */
module Ledger {
  import opened Options

  /** Observation, fence, attempt and correlation identifiers, model names and
      documentary digests: opaque tokens that are only compared. */
  type Id(==, !new)

  datatype Role = Planner | Judge

  datatype Outcome =
    | ReservationNoSend
    | ResponseObserved
    | CompletionUnknown
    | ModelIdentityRejected
    | ResponseRejected

  /** STOP_OUTCOMES is the complement of these two. */
  predicate Safe(o: Outcome) { o == ReservationNoSend || o == ResponseObserved }

  datatype AttemptState = Reserved | InFlight | Terminal
  datatype McpState = McpReserved | McpAdmitted | McpTerminal
  datatype McpOutcome = ClientResponseObserved | ClientReceiptUnknown
  datatype FenceState = Open | Closed

  datatype Reservation = Reservation(
    attemptId: Id, correlationId: Id, observation: Id, role: Role,
    model: Id, request: Id, prompt: Id, schema: Id,
    retry: nat, retryReason: Option<Id>)

  datatype Attempt = Attempt(reservation: Reservation, state: AttemptState, outcome: Option<Outcome>)
  datatype McpCall = McpCall(reservationId: Id, proposal: Id, state: McpState, outcome: Option<McpOutcome>)
  datatype Fence = Fence(fenceId: Id, state: FenceState, summary: Option<Id>)

  /** The process-local right to act inside one open observation. */
  datatype Capability = Capability(observation: Id, fenceId: Id)

  datatype Limits = Limits(planner: nat, judge: nat, observations: nat) {
    function For(role: Role): nat { if role.Planner? then planner else judge }
    predicate Valid() { planner <= 12 && judge <= 12 && 1 <= observations <= 6 }
  }

  datatype Ledger = Ledger(
    limits: Limits,
    stopped: bool,
    stopReason: Option<string>,
    observations: set<Id>,
    attempts: map<Id, Attempt>,
    mcp: map<Id, McpCall>,
    fences: map<Id, Fence>)

  datatype Error =
    | Unavailable
    | BudgetExceeded
    | RunStopped
    | StopClearanceNotAuthorized
    | UnresolvedFence
    | OtherFenceActive
    | UnresolvedPending
    | UnresolvedCustody
    | CapabilityRequired
    | CapabilityAlreadySet
    | FenceAlreadyExists
    | InvalidArgument
    | DuplicateAttempt
    | RetryWithoutKnownCompletion
    | RetryIdentityMismatch
    | BindingMismatch
    | AlreadyStartedOrCompleted
    | AlreadyCompleted
    | CannotClaimNoSendAfterStart
    | ResponseRequiresStart
    | DuplicateMcp
    | McpMissing
    | McpProposalMismatch
    | McpAlreadyAdmitted
    | McpMissingOrCompleted

  datatype Txn =
    | Commit(db: Ledger)
    | CommitThenRaise(db: Ledger, error: Error)
    | Raise(error: Error)
    | Refuse(error: Error)
  {
    predicate Rejected() { Raise? || Refuse? }
  }

  /** The fate of the store operation: acknowledged, failed without effect, or
      committed with the acknowledgement lost. */
  datatype Fate = Acknowledged | NotCommitted | AckLost

  datatype Reply = Ok | Err(error: Error)

  function Refusal(e: Error, fate: Fate): Reply { Err(if fate == Acknowledged then e else Unavailable) }

  /** The durable state and the caller's reply, once the fate is known. */
  function Settle(db: Ledger, txn: Txn, fate: Fate): (Ledger, Reply) {
    match txn
    case Commit(db') =>
      (if fate == NotCommitted then db else db', if fate == Acknowledged then Ok else Err(Unavailable))
    case CommitThenRaise(db', e) => (if fate == NotCommitted then db else db', Refusal(e, fate))
    case Raise(e) => (db, Refusal(e, fate))
    case Refuse(e) => (db, Err(e))
  }

  function Create(limits: Limits): Ledger {
    Ledger(limits, false, None, {}, map[], map[], map[])
  }

  /** COALESCE keeps the first reason. */
  function Halt(db: Ledger, reason: string): Ledger {
    db.(stopped := true, stopReason := if db.stopReason.Some? then db.stopReason else Some(reason))
  }

  predicate AttemptPending(a: Attempt) { a.state != Terminal }
  predicate McpPending(m: McpCall) { m.state != McpTerminal }

  predicate AnyPending(db: Ledger) {
    || (exists id | id in db.attempts :: AttemptPending(db.attempts[id]))
    || (exists o | o in db.mcp :: McpPending(db.mcp[o]))
  }

  /** The SQL test of close_safe_observation; a NULL outcome fails no comparison. */
  predicate UnsafeAttempt(a: Attempt) { a.state != Terminal || (a.outcome.Some? && !Safe(a.outcome.value)) }
  predicate UnsafeMcp(m: McpCall) {
    m.state != McpTerminal || (m.outcome.Some? && m.outcome.value != ClientResponseObserved)
  }
  predicate AnyUnsafe(db: Ledger) {
    || (exists id | id in db.attempts :: UnsafeAttempt(db.attempts[id]))
    || (exists o | o in db.mcp :: UnsafeMcp(db.mcp[o]))
  }

  predicate IsOpen(fences: map<Id, Fence>, o: Id) { o in fences && fences[o].state == Open }

  predicate AnyOpen(db: Ledger) { exists o | o in db.fences :: IsOpen(db.fences, o) }

  /** The capability is the one of the fence row of o. */
  predicate Holds(fences: map<Id, Fence>, cap: Option<Capability>, o: Id) {
    o in fences && cap == Some(Capability(o, fences[o].fenceId))
  }

  /** _assert_fence_access: every open fence must be the caller's own and the one asked for. */
  function FenceError(db: Ledger, cap: Option<Capability>, o: Id): Option<Error> {
    if exists x | x in db.fences :: IsOpen(db.fences, x) && !Holds(db.fences, cap, x) then Some(UnresolvedFence)
    else if exists x | x in db.fences :: IsOpen(db.fences, x) && x != o then Some(OtherFenceActive)
    else None
  }

  /** _reserve_observation: None when the observation budget is exhausted. */
  function ReserveObservation(db: Ledger, o: Id): Option<Ledger> {
    if o in db.observations then Some(db)
    else if |db.observations| >= db.limits.observations then None
    else Some(db.(observations := db.observations + {o}))
  }

  function RoleAttempts(attempts: map<Id, Attempt>, role: Role): set<Id> {
    set id | id in attempts && attempts[id].reservation.role == role
  }

  predicate SameSlot(a: Reservation, b: Reservation) {
    a.observation == b.observation && a.role == b.role && a.retry == b.retry
  }

  predicate SameIdentity(a: Reservation, b: Reservation) {
    a.model == b.model && a.request == b.request && a.prompt == b.prompt && a.schema == b.schema
  }

  /** The rows of the same observation and role. */
  function Prior(db: Ledger, r: Reservation): set<Id> {
    set id | id in db.attempts
      && db.attempts[id].reservation.observation == r.observation
      && db.attempts[id].reservation.role == r.role
  }

  predicate KnownCompletion(a: Attempt) { a.outcome.Some? && Safe(a.outcome.value) }

  // ---- Transactions ----

  function AssertActiveTxn(db: Ledger, cap: Option<Capability>, o: Id): Txn {
    if db.stopped then Raise(RunStopped)
    else if FenceError(db, cap, o).Some? then Raise(FenceError(db, cap, o).value)
    else if !(IsOpen(db.fences, o) && Holds(db.fences, cap, o)) then Raise(CapabilityRequired)
    else Commit(db)
  }

  /** Why a begin without a capability is refused before the observation budget is looked at. */
  function BeginError(db: Ledger, o: Id): Option<Error> {
    if db.stopped then Some(RunStopped)
    else if FenceError(db, None, o).Some? then FenceError(db, None, o)
    else if AnyPending(db) then Some(UnresolvedPending)
    else if o in db.fences then Some(FenceAlreadyExists)
    else None
  }

  /** The observation budget and the new fence. */
  function OpenTxn(db: Ledger, o: Id, fenceId: Id): Txn {
    match ReserveObservation(db, o)
    case None => CommitThenRaise(Halt(db, "OBSERVATION_BUDGET_EXHAUSTED"), BudgetExceeded)
    case Some(db') =>
      if exists x | x in db.fences :: db.fences[x].fenceId == fenceId then Raise(Unavailable)
      else Commit(db'.(fences := db'.fences[o := Fence(fenceId, Open, None)]))
  }

  function BeginTxn(db: Ledger, cap: Option<Capability>, o: Id, fenceId: Id): Txn {
    if cap.Some? then
      if cap.value.observation != o then Refuse(OtherFenceActive) else AssertActiveTxn(db, cap, o)
    else match BeginError(db, o)
      case Some(e) => Raise(e)
      case None => OpenTxn(db, o, fenceId)
  }

  function JoinTxn(db: Ledger, cap: Option<Capability>, o: Id, fenceId: Id): Txn {
    if cap.Some? then Refuse(CapabilityAlreadySet)
    else if db.stopped then Raise(RunStopped)
    else if !(IsOpen(db.fences, o) && db.fences[o].fenceId == fenceId) then Raise(CapabilityRequired)
    else Commit(db)
  }

  function CloseTxn(db: Ledger, cap: Option<Capability>, o: Id, summary: Id): Txn {
    if db.stopped then Raise(StopClearanceNotAuthorized)
    else if FenceError(db, cap, o).Some? then Raise(FenceError(db, cap, o).value)
    else if !(IsOpen(db.fences, o) && Holds(db.fences, cap, o)) then Raise(CapabilityRequired)
    else if AnyUnsafe(db) then Raise(UnresolvedCustody)
    else Commit(db.(fences := db.fences[o := db.fences[o].(state := Closed, summary := Some(summary))]))
  }

  /** A uuid4 or fence token that repeats violates PRIMARY KEY or UNIQUE, a store error. */
  predicate TokenTaken(db: Ledger, r: Reservation) {
    r.attemptId in db.attempts
    || exists id | id in db.attempts :: db.attempts[id].reservation.correlationId == r.correlationId
  }

  /** What the earlier rows of the same observation and role say about a new one. */
  function PriorError(db: Ledger, r: Reservation): Option<Error> {
    var prior := Prior(db, r);
    if exists p | p in prior :: db.attempts[p].reservation.retry == r.retry then Some(DuplicateAttempt)
    else if r.retry == 0 then None
    else if !(|prior| == 1 && forall p | p in prior :: KnownCompletion(db.attempts[p]))
    then Some(RetryWithoutKnownCompletion)
    else if exists p | p in prior :: !SameIdentity(db.attempts[p].reservation, r) then Some(RetryIdentityMismatch)
    else None
  }

  /** Why a reservation is refused before any budget is looked at. */
  function ReserveError(db: Ledger, cap: Option<Capability>, r: Reservation): Option<Error> {
    if db.stopped then Some(RunStopped)
    else if FenceError(db, cap, r.observation).Some? then FenceError(db, cap, r.observation)
    else PriorError(db, r)
  }

  /** The budgets and the insertion. */
  function GrantTxn(db: Ledger, r: Reservation): Txn {
    if |RoleAttempts(db.attempts, r.role)| >= db.limits.For(r.role)
    then CommitThenRaise(Halt(db, "ROLE_BUDGET_EXHAUSTED"), BudgetExceeded)
    else match ReserveObservation(db, r.observation)
      case None => CommitThenRaise(Halt(db, "OBSERVATION_BUDGET_EXHAUSTED"), BudgetExceeded)
      case Some(db') =>
        if TokenTaken(db, r) then Raise(Unavailable)
        else Commit(db'.(attempts := db'.attempts[r.attemptId := Attempt(r, Reserved, None)]))
  }

  function ReserveTxn(db: Ledger, cap: Option<Capability>, r: Reservation): Txn {
    if r.retry > 1 || (r.retry == 0) != r.retryReason.None? then Refuse(InvalidArgument)
    else match ReserveError(db, cap, r)
      case Some(e) => Raise(e)
      case None => GrantTxn(db, r)
  }

  predicate Bound(db: Ledger, r: Reservation) {
    r.attemptId in db.attempts && db.attempts[r.attemptId].reservation == r
  }

  function StartTxn(db: Ledger, cap: Option<Capability>, r: Reservation): Txn {
    if db.stopped then Raise(RunStopped)
    else if FenceError(db, cap, r.observation).Some? then Raise(FenceError(db, cap, r.observation).value)
    else if !Bound(db, r) then Raise(BindingMismatch)
    else if db.attempts[r.attemptId].state != Reserved then Raise(AlreadyStartedOrCompleted)
    else Commit(db.(attempts := db.attempts[r.attemptId := db.attempts[r.attemptId].(state := InFlight)]))
  }

  function OutcomeReason(o: Outcome): string {
    match o
    case ReservationNoSend => "RESERVATION_NO_SEND"
    case ResponseObserved => "RESPONSE_OBSERVED"
    case CompletionUnknown => "COMPLETION_UNKNOWN"
    case ModelIdentityRejected => "MODEL_IDENTITY_REJECTED"
    case ResponseRejected => "RESPONSE_REJECTED"
  }

  function FinishTxn(db: Ledger, r: Reservation, outcome: Outcome): Txn {
    if !Bound(db, r) then Raise(BindingMismatch)
    else
      var row := db.attempts[r.attemptId];
      if row.state == Terminal then Raise(AlreadyCompleted)
      else if outcome == ReservationNoSend && row.state != Reserved then Raise(CannotClaimNoSendAfterStart)
      else if outcome == ResponseObserved && row.state != InFlight then Raise(ResponseRequiresStart)
      else
        var db' := db.(attempts := db.attempts[r.attemptId := row.(state := Terminal, outcome := Some(outcome))]);
        Commit(if Safe(outcome) then db' else Halt(db', OutcomeReason(outcome)))
  }

  function StopTxn(db: Ledger, reason: string): Txn { Commit(Halt(db, reason)) }

  function ReserveMcpTxn(db: Ledger, cap: Option<Capability>, o: Id, proposal: Id, reservationId: Id): Txn {
    if db.stopped then Raise(RunStopped)
    else if FenceError(db, cap, o).Some? then Raise(FenceError(db, cap, o).value)
    else if o in db.mcp then Raise(DuplicateMcp)
    else match ReserveObservation(db, o)
      case None => CommitThenRaise(Halt(db, "OBSERVATION_BUDGET_EXHAUSTED"), BudgetExceeded)
      case Some(db') =>
        if exists x | x in db.mcp :: db.mcp[x].reservationId == reservationId then Raise(Unavailable)
        else Commit(db'.(mcp := db'.mcp[o := McpCall(reservationId, proposal, McpReserved, None)]))
  }

  function AdmitMcpTxn(db: Ledger, cap: Option<Capability>, o: Id, proposal: Id): Txn {
    if db.stopped then Raise(RunStopped)
    else if FenceError(db, cap, o).Some? then Raise(FenceError(db, cap, o).value)
    else if o !in db.mcp then Raise(McpMissing)
    else if db.mcp[o].proposal != proposal then Raise(McpProposalMismatch)
    else if db.mcp[o].state != McpReserved then Raise(McpAlreadyAdmitted)
    else Commit(db.(mcp := db.mcp[o := db.mcp[o].(state := McpAdmitted)]))
  }

  function FinishMcpTxn(db: Ledger, o: Id, outcome: McpOutcome): Txn {
    if o !in db.mcp || db.mcp[o].state == McpTerminal then Raise(McpMissingOrCompleted)
    else
      var db' := db.(mcp := db.mcp[o := db.mcp[o].(state := McpTerminal, outcome := Some(outcome))]);
      Commit(if outcome == ClientReceiptUnknown then Halt(db', "CLIENT_RECEIPT_UNKNOWN") else db')
  }

  /** The restart gate.  Without a capability any open fence blocks it. */
  function EnsureRecoverableTxn(db: Ledger, cap: Option<Capability>): Txn {
    if cap.None? && AnyOpen(db) then Raise(UnresolvedFence)
    else if cap.Some? && FenceError(db, cap, cap.value.observation).Some?
    then Raise(FenceError(db, cap, cap.value.observation).value)
    else if AnyPending(db) then CommitThenRaise(Halt(db, "UNRESOLVED_PENDING_ATTEMPT"), UnresolvedPending)
    else if db.stopped then Raise(RunStopped)
    else Commit(db)
  }
}
