/** For every operation of the ledger: when exactly it is granted, and what exactly it then leaves behind. Said of rows,
    counts and caps alone, so that it does not depend on how the transactions are written. */
module LedgerExact {
  import opened Options
  import opened Ledger
  import opened LedgerInvariant
  import opened LedgerRuns

  // ---- Access and budgets ----

  /** Every open fence is the one of o, and the caller has its capability. */
  ghost predicate MayAct(db: Ledger, cap: Option<Capability>, o: Id) {
    forall x | x in db.fences && db.fences[x].state == Open ::
      x == o && cap == Some(Capability(o, db.fences[x].fenceId))
  }

  /** The caller's own fence is open, and it is not the one asked for. */
  ghost predicate Elsewhere(db: Ledger, cap: Option<Capability>, asked: Option<Id>, x: Id) {
    && asked != Some(x) && x in db.fences && db.fences[x].state == Open
    && cap == Some(Capability(x, db.fences[x].fenceId))
  }

  lemma AccessExactly(db: Ledger, cap: Option<Capability>, o: Id)
    ensures FenceError(db, cap, o).None? <==> MayAct(db, cap, o)
    ensures FenceError(db, cap, o) == Some(UnresolvedFence) <==>
      exists x :: x in db.fences && db.fences[x].state == Open && cap != Some(Capability(x, db.fences[x].fenceId))
    ensures FenceError(db, cap, o) == Some(OtherFenceActive) ==>
      exists x :: Elsewhere(db, cap, Some(o), x)
    ensures FenceError(db, cap, o).Some? ==> FenceError(db, cap, o).value in {UnresolvedFence, OtherFenceActive}
  {
    assert forall x :: x in db.fences && db.fences[x].state == Open <==> IsOpen(db.fences, x);
    if FenceError(db, cap, o) == Some(OtherFenceActive) {
      var x :| x in db.fences && IsOpen(db.fences, x) && x != o;
      assert Elsewhere(db, cap, Some(o), x);
    }
  }

  ghost predicate Quiet(db: Ledger) {
    && (forall id | id in db.attempts :: db.attempts[id].state == Terminal)
    && (forall o | o in db.mcp :: db.mcp[o].state == McpTerminal)
  }

  lemma QuietExactly(db: Ledger)
    ensures AnyPending(db) <==> !Quiet(db)
  {
  }

  /** The observation is counted already, or the cap leaves room for it. */
  ghost predicate Countable(db: Ledger, o: Id) { o in db.observations || |db.observations| < db.limits.observations }

  ghost predicate SameStop(a: Ledger, b: Ledger) { b.stopped == a.stopped && b.stopReason == a.stopReason }

  /** Stopped from now on, for this reason unless there is an earlier one. */
  ghost predicate StopsFor(a: Ledger, b: Ledger, reason: string) {
    b.stopped && b.stopReason == (if a.stopReason.Some? then a.stopReason else Some(reason))
  }

  ghost predicate SameRows(a: Ledger, b: Ledger) { b.attempts == a.attempts && b.mcp == a.mcp }

  // ---- Fences ----

  lemma BeginExactly(db: Ledger, o: Id, fenceId: Id)
    ensures BeginTxn(db, None, o, fenceId).Commit? <==>
      && !db.stopped && Quiet(db) && o !in db.fences && Countable(db, o)
      && (forall x | x in db.fences :: db.fences[x].state == Closed && db.fences[x].fenceId != fenceId)
    ensures BeginTxn(db, None, o, fenceId).Commit? ==>
      var db' := BeginTxn(db, None, o, fenceId).db;
      && db'.fences == db.fences[o := Fence(fenceId, Open, None)] && db'.observations == db.observations + {o}
      && db'.limits == db.limits && SameStop(db, db') && SameRows(db, db')
  {
    QuietExactly(db);
    AccessExactly(db, None, o);
    hide AnyPending, FenceError, Quiet;
  }

  /** A controller that already holds a capability begins nothing: it is asked whether its own fence is still good. */
  lemma BeginAgain(db: Ledger, c: Capability, o: Id, fenceId: Id)
    ensures BeginTxn(db, Some(c), o, fenceId).Commit? <==> c.observation == o && AssertActiveTxn(db, Some(c), o).Commit?
    ensures BeginTxn(db, Some(c), o, fenceId).Commit? ==> BeginTxn(db, Some(c), o, fenceId).db == db
  {
    hide FenceError, IsOpen, Holds;
  }

  lemma ActiveExactly(db: Ledger, cap: Option<Capability>, o: Id)
    requires FencesSound(db.fences)
    ensures AssertActiveTxn(db, cap, o).Commit? <==>
      !db.stopped && o in db.fences && db.fences[o].state == Open && cap == Some(Capability(o, db.fences[o].fenceId))
    ensures AssertActiveTxn(db, cap, o).Commit? ==> AssertActiveTxn(db, cap, o).db == db
  {
    AccessExactly(db, cap, o);
    hide FenceError;
    if IsOpen(db.fences, o) && Holds(db.fences, cap, o) {
      forall x | x in db.fences && db.fences[x].state == Open
        ensures x == o && cap == Some(Capability(o, db.fences[x].fenceId))
      {
        assert IsOpen(db.fences, x);
      }
      assert MayAct(db, cap, o);
    }
  }

  lemma JoinExactly(db: Ledger, cap: Option<Capability>, o: Id, fenceId: Id)
    ensures JoinTxn(db, cap, o, fenceId).Commit? <==>
      && cap.None? && !db.stopped
      && o in db.fences && db.fences[o].state == Open && db.fences[o].fenceId == fenceId
    ensures JoinTxn(db, cap, o, fenceId).Commit? ==> JoinTxn(db, cap, o, fenceId).db == db
  {
  }

  /** What the close writes; when it is granted says CloseExactly. */
  lemma CloseWrites(db: Ledger, cap: Option<Capability>, o: Id, summary: Id)
    requires CloseTxn(db, cap, o, summary).Commit?
    ensures var db' := CloseTxn(db, cap, o, summary).db;
      && o in db.fences && db'.fences == db.fences[o := Fence(db.fences[o].fenceId, Closed, Some(summary))]
      && db'.observations == db.observations && db'.limits == db.limits && SameStop(db, db') && SameRows(db, db')
  {
    hide FenceError, AnyUnsafe;
  }

  /** The restart gate opens exactly for a quiet, unstopped run without a fence that is open to somebody else. */
  lemma RecoverableExactly(db: Ledger, cap: Option<Capability>)
    ensures EnsureRecoverableTxn(db, cap).Commit? <==>
      && !db.stopped && Quiet(db)
      && (forall x | x in db.fences && db.fences[x].state == Open :: cap == Some(Capability(x, db.fences[x].fenceId)))
    ensures EnsureRecoverableTxn(db, cap).Commit? ==> EnsureRecoverableTxn(db, cap).db == db
  {
    QuietExactly(db);
    if cap.Some? { AccessExactly(db, cap, cap.value.observation); }
    hide AnyPending, FenceError, Quiet;
  }

  // ---- Attempts ----

  /** No attempt of the same observation and role has the same retry index. */
  ghost predicate SlotFree(db: Ledger, r: Reservation) {
    forall id | id in db.attempts ::
      var p := db.attempts[id].reservation;
      !(p.observation == r.observation && p.role == r.role && p.retry == r.retry)
  }

  /** The first attempt that r would retry: ended safely, with the same model, request, prompt and schema. */
  ghost predicate Retried(db: Ledger, r: Reservation, id: Id) {
    && id in db.attempts
    && var a := db.attempts[id];
    && a.reservation.observation == r.observation && a.reservation.role == r.role && a.reservation.retry == 0
    && a.state == Terminal && a.outcome in {Some(ReservationNoSend), Some(ResponseObserved)}
    && a.reservation.model == r.model && a.reservation.request == r.request
    && a.reservation.prompt == r.prompt && a.reservation.schema == r.schema
  }

  /** In a sound ledger a retry has no obstacle among the earlier rows exactly when its slot is free and the first
      attempt is there, ended safely, and is the same request. */
  lemma RetryExactly(db: Ledger, r: Reservation)
    requires Inv(db) && r.retry == 1
    ensures PriorError(db, r).None? <==> SlotFree(db, r) && exists id :: Retried(db, r, id)
  {
    var prior := Prior(db, r);
    forall id | id in db.attempts ensures AttemptSound(db.observations, db.stopped, id, db.attempts[id]) {}
    if PriorError(db, r).None? {
      var id :| id in prior;
      assert prior == {id};
      assert Retried(db, r, id);
      assert forall x | x in db.attempts && SameSlot(db.attempts[x].reservation, r) :: x in prior;
    }
    if id :| SlotFree(db, r) && Retried(db, r, id) {
      forall x | x in prior ensures x == id {
        assert SameSlot(db.attempts[x].reservation, db.attempts[id].reservation);
      }
      assert prior == {id};
    }
  }

  lemma FirstExactly(db: Ledger, r: Reservation)
    requires r.retry == 0
    ensures PriorError(db, r).None? <==> SlotFree(db, r)
  {
    assert forall x | x in db.attempts && SameSlot(db.attempts[x].reservation, r) :: x in Prior(db, r);
  }

  ghost function Used(db: Ledger, role: Role): set<Id> {
    set id | id in db.attempts && db.attempts[id].reservation.role == role
  }

  ghost predicate TokensFree(db: Ledger, r: Reservation) {
    r.attemptId !in db.attempts
    && forall id | id in db.attempts :: db.attempts[id].reservation.correlationId != r.correlationId
  }

  lemma GrantExactly(db: Ledger, r: Reservation)
    ensures GrantTxn(db, r).Commit? <==>
      && |Used(db, r.role)| < (if r.role == Planner then db.limits.planner else db.limits.judge)
      && Countable(db, r.observation) && TokensFree(db, r)
  {
    assert Used(db, r.role) == RoleAttempts(db.attempts, r.role);
    hide Used, RoleAttempts;
  }

  lemma ReserveExactly(db: Ledger, cap: Option<Capability>, r: Reservation)
    requires Inv(db)
    ensures ReserveTxn(db, cap, r).Commit? <==>
      && ((r.retry == 0 && r.retryReason.None?) || (r.retry == 1 && r.retryReason.Some?))
      && !db.stopped && MayAct(db, cap, r.observation) && SlotFree(db, r)
      && (r.retry == 1 ==> exists id :: Retried(db, r, id))
      && |Used(db, r.role)| < (if r.role == Planner then db.limits.planner else db.limits.judge)
      && Countable(db, r.observation) && TokensFree(db, r)
  {
    AccessExactly(db, cap, r.observation);
    if r.retry == 1 { RetryExactly(db, r); } else if r.retry == 0 { FirstExactly(db, r); }
    GrantExactly(db, r);
    hide Inv, FenceError, PriorError, GrantTxn, MayAct, Retried, SlotFree, Used, Countable, TokensFree;
  }

  lemma ReserveWrites(db: Ledger, cap: Option<Capability>, r: Reservation)
    requires ReserveTxn(db, cap, r).Commit?
    ensures var db' := ReserveTxn(db, cap, r).db;
      && db'.attempts == db.attempts[r.attemptId := Attempt(r, Reserved, None)]
      && db'.observations == db.observations + {r.observation}
      && db'.limits == db.limits && db'.mcp == db.mcp && db'.fences == db.fences && SameStop(db, db')
  {
    hide ReserveError, RoleAttempts, TokenTaken;
  }

  lemma StartExactly(db: Ledger, cap: Option<Capability>, r: Reservation)
    ensures StartTxn(db, cap, r).Commit? <==>
      && !db.stopped && MayAct(db, cap, r.observation)
      && r.attemptId in db.attempts && db.attempts[r.attemptId].reservation == r
      && db.attempts[r.attemptId].state == Reserved
    ensures StartTxn(db, cap, r).Commit? ==>
      var db' := StartTxn(db, cap, r).db;
      && db'.attempts == db.attempts[r.attemptId := Attempt(r, InFlight, db.attempts[r.attemptId].outcome)]
      && db'.observations == db.observations && db'.limits == db.limits
      && db'.mcp == db.mcp && db'.fences == db.fences && SameStop(db, db')
  {
    AccessExactly(db, cap, r.observation);
    hide FenceError, MayAct;
  }

  /** A completion needs no fence and no unstopped run. It is recorded as claimed, and an unsafe one stops the run. */
  lemma FinishExactly(db: Ledger, r: Reservation, outcome: Outcome)
    ensures FinishTxn(db, r, outcome).Commit? <==>
      && r.attemptId in db.attempts && db.attempts[r.attemptId].reservation == r
      && db.attempts[r.attemptId].state != Terminal
      && (outcome == ReservationNoSend ==> db.attempts[r.attemptId].state == Reserved)
      && (outcome == ResponseObserved ==> db.attempts[r.attemptId].state == InFlight)
    ensures FinishTxn(db, r, outcome).Commit? ==>
      var db' := FinishTxn(db, r, outcome).db;
      && db'.attempts == db.attempts[r.attemptId := Attempt(r, Terminal, Some(outcome))]
      && db'.observations == db.observations && db'.limits == db.limits && db'.mcp == db.mcp && db'.fences == db.fences
      && match outcome
         case ReservationNoSend => SameStop(db, db')
         case ResponseObserved => SameStop(db, db')
         case CompletionUnknown => StopsFor(db, db', "COMPLETION_UNKNOWN")
         case ModelIdentityRejected => StopsFor(db, db', "MODEL_IDENTITY_REJECTED")
         case ResponseRejected => StopsFor(db, db', "RESPONSE_REJECTED")
  {
  }

  // ---- MCP calls ----

  lemma ReserveMcpExactly(db: Ledger, cap: Option<Capability>, o: Id, proposal: Id, reservationId: Id)
    ensures ReserveMcpTxn(db, cap, o, proposal, reservationId).Commit? <==>
      && !db.stopped && MayAct(db, cap, o) && o !in db.mcp && Countable(db, o)
      && (forall x | x in db.mcp :: db.mcp[x].reservationId != reservationId)
    ensures ReserveMcpTxn(db, cap, o, proposal, reservationId).Commit? ==>
      var db' := ReserveMcpTxn(db, cap, o, proposal, reservationId).db;
      && db'.mcp == db.mcp[o := McpCall(reservationId, proposal, McpReserved, None)]
      && db'.observations == db.observations + {o}
      && db'.limits == db.limits && db'.attempts == db.attempts && db'.fences == db.fences && SameStop(db, db')
  {
    AccessExactly(db, cap, o);
    hide FenceError, MayAct;
  }

  lemma AdmitMcpExactly(db: Ledger, cap: Option<Capability>, o: Id, proposal: Id)
    ensures AdmitMcpTxn(db, cap, o, proposal).Commit? <==>
      && !db.stopped && MayAct(db, cap, o)
      && o in db.mcp && db.mcp[o].proposal == proposal && db.mcp[o].state == McpReserved
    ensures AdmitMcpTxn(db, cap, o, proposal).Commit? ==>
      var db' := AdmitMcpTxn(db, cap, o, proposal).db;
      && db'.mcp == db.mcp[o := McpCall(db.mcp[o].reservationId, proposal, McpAdmitted, db.mcp[o].outcome)]
      && db'.observations == db.observations && db'.limits == db.limits
      && db'.attempts == db.attempts && db'.fences == db.fences && SameStop(db, db')
  {
    AccessExactly(db, cap, o);
    hide FenceError, MayAct;
  }

  /** A finished MCP call is terminal with the outcome claimed; an unknown receipt stops the run, an observed response
      leaves the stop fields as they were. */
  lemma FinishMcpExactly(db: Ledger, o: Id, outcome: McpOutcome)
    ensures FinishMcpTxn(db, o, outcome).Commit? <==> o in db.mcp && db.mcp[o].state != McpTerminal
    ensures FinishMcpTxn(db, o, outcome).Commit? ==>
      var db' := FinishMcpTxn(db, o, outcome).db;
      && db'.mcp == db.mcp[o := McpCall(db.mcp[o].reservationId, db.mcp[o].proposal, McpTerminal, Some(outcome))]
      && db'.observations == db.observations && db'.limits == db.limits
      && db'.attempts == db.attempts && db'.fences == db.fences
      && match outcome
         case ClientResponseObserved => SameStop(db, db')
         case ClientReceiptUnknown => StopsFor(db, db', "CLIENT_RECEIPT_UNKNOWN")
  {
  }

  /** An interrupted MCP call can never be followed by a safe close, in any later ledger of any run. */
  lemma UnknownReceiptNeverCloses(s: System, pid: nat, o: Id, fate: Fate, es: seq<Event>, q: nat, x: Id, summary: Id)
    requires SysInv(s) && pid in s.caps && fate != NotCommitted
    requires o in s.db.mcp && s.db.mcp[o].state != McpTerminal
    requires var s1 := Next(s, Call(pid, FinishMcp(o, ClientReceiptUnknown), fate)); q in Run(s1, es).caps
    ensures var s2 := Run(Next(s, Call(pid, FinishMcp(o, ClientReceiptUnknown), fate)), es);
      && s2.db.stopped && o in s2.db.mcp && s2.db.mcp[o].outcome == Some(ClientReceiptUnknown)
      && !CloseTxn(s2.db, s2.caps[q], x, summary).Commit?
  {
    var e := Call(pid, FinishMcp(o, ClientReceiptUnknown), fate);
    FinishMcpExactly(s.db, o, ClientReceiptUnknown);
    StepGood(s, e);
    RunGood(Next(s, e), es);
    SnapshotOutlasts(Next(s, e), es);
    hide Inv, Evolves;
  }

  // ---- Fates, capabilities and refusals ----

  /** A caller learns of success exactly when the commit was acknowledged; a store operation that did not commit leaves
      no trace, and one that lost its acknowledgement leaves all of it. */
  lemma FateExactly(db: Ledger, cap: Option<Capability>, op: Op, fate: Fate)
    ensures var txn := Exec(db, cap, op);
      var (db', reply) := Settle(db, txn, fate);
      && (reply.Ok? <==> txn.Commit? && fate == Acknowledged)
      && (db' == if fate == NotCommitted || txn.Rejected() then db else txn.db)
      && (fate == Acknowledged && !txn.Commit? ==> reply == Err(txn.error))
      && (fate != Acknowledged && !txn.Refuse? ==> reply == Err(Unavailable))
  {
    hide Exec;
  }

  /** Who holds what after an acknowledged call. */
  lemma CapabilityExactly(db: Ledger, cap: Option<Capability>, op: Op)
    requires Inv(db) && (cap.Some? ==> Holds(db.fences, cap, cap.value.observation)) && Exec(db, cap, op).Commit?
    ensures op.Close? ==> CapAfter(cap, op) == None
    ensures !op.Close? && cap.Some? ==> CapAfter(cap, op) == cap
    ensures op.Begin? || op.Join? ==>
      var db' := Exec(db, cap, op).db;
      && op.o in db'.fences && db'.fences[op.o].state == Open
      && CapAfter(cap, op) == Some(Capability(op.o, db'.fences[op.o].fenceId))
    ensures !op.Begin? && !op.Join? && cap.None? ==> CapAfter(cap, op) == None
  {
    match op
    case Begin(o, f) =>
      if cap.None? {
        BeginExactly(db, o, f);
      } else {
        BeginAgain(db, cap.value, o, f);
        ActiveExactly(db, cap, o);
      }
      hide BeginTxn, AssertActiveTxn, Inv;
    case Join(o, f) => JoinExactly(db, cap, o, f);
    case _ =>
      hide Inv, Exec;
  }

  /** The earlier attempt of r's observation and role was another request. */
  ghost predicate Differs(db: Ledger, r: Reservation, id: Id) {
    && id in db.attempts
    && var p := db.attempts[id].reservation;
    && p.observation == r.observation && p.role == r.role
    && (p.model != r.model || p.request != r.request || p.prompt != r.prompt || p.schema != r.schema)
  }

  /** The observation an operation needs access to. */
  function Asked(op: Op): Option<Id> {
    match op
    case Reserve(r) => Some(r.observation)
    case Start(r) => Some(r.observation)
    case Begin(o, _) => Some(o)
    case Close(o, _) => Some(o)
    case AssertActive(o) => Some(o)
    case ReserveMcp(o, _, _) => Some(o)
    case AdmitMcp(o, _) => Some(o)
    case _ => None
  }

  /** What each reason given for a refused call says of the call and the ledger. */
  ghost predicate ReasonHolds(db: Ledger, cap: Option<Capability>, op: Op, e: Error) {
    match e
    case RunStopped => db.stopped
    case StopClearanceNotAuthorized => op.Close? && db.stopped
    case UnresolvedFence =>
      exists x :: x in db.fences && db.fences[x].state == Open && cap != Some(Capability(x, db.fences[x].fenceId))
    case OtherFenceActive =>
      || (op.Begin? && cap.Some? && cap.value.observation != op.o)
      || exists x :: Elsewhere(db, cap, Asked(op), x)
    case UnresolvedPending => (op.Begin? || op.EnsureRecoverable?) && !Quiet(db)
    case UnresolvedCustody =>
      && op.Close?
      && (!Quiet(db)
          || (exists id :: id in db.attempts
               && db.attempts[id].outcome !in {None, Some(ReservationNoSend), Some(ResponseObserved)})
          || (exists o :: o in db.mcp && db.mcp[o].outcome == Some(ClientReceiptUnknown)))
    case CapabilityRequired =>
      && (op.AssertActive? || op.Close? || op.Join? || op.Begin?)
      && (op.Close? ==> !(op.o in db.fences && db.fences[op.o].state == Open
                          && cap == Some(Capability(op.o, db.fences[op.o].fenceId))))
      && (op.AssertActive? ==> !(op.o in db.fences && db.fences[op.o].state == Open
                                 && cap == Some(Capability(op.o, db.fences[op.o].fenceId))))
      && (op.Join? ==> !(op.o in db.fences && db.fences[op.o] == Fence(op.fenceId, Open, db.fences[op.o].summary)))
    case CapabilityAlreadySet => op.Join? && cap.Some?
    case FenceAlreadyExists => op.Begin? && op.o in db.fences
    case InvalidArgument =>
      op.Reserve? && !((op.r.retry == 0 && op.r.retryReason.None?) || (op.r.retry == 1 && op.r.retryReason.Some?))
    case BudgetExceeded =>
      || (op.Reserve? && |Used(db, op.r.role)| >= if op.r.role == Planner then db.limits.planner else db.limits.judge)
      || (op.Reserve? && !Countable(db, op.r.observation))
      || ((op.Begin? || op.ReserveMcp?) && !Countable(db, op.o))
    case DuplicateAttempt => op.Reserve? && !SlotFree(db, op.r)
    case RetryWithoutKnownCompletion => op.Reserve? && op.r.retry == 1 && !exists id :: Retried(db, op.r, id)
    case RetryIdentityMismatch => op.Reserve? && op.r.retry == 1 && exists id :: Differs(db, op.r, id)
    case BindingMismatch =>
      && (op.Start? || op.Finish?)
      && !(op.r.attemptId in db.attempts && db.attempts[op.r.attemptId].reservation == op.r)
    case AlreadyStartedOrCompleted =>
      op.Start? && op.r.attemptId in db.attempts && db.attempts[op.r.attemptId].state != Reserved
    case AlreadyCompleted =>
      op.Finish? && op.r.attemptId in db.attempts && db.attempts[op.r.attemptId].state == Terminal
    case CannotClaimNoSendAfterStart =>
      && op.Finish? && op.outcome == ReservationNoSend
      && op.r.attemptId in db.attempts && db.attempts[op.r.attemptId].state != Reserved
    case ResponseRequiresStart =>
      && op.Finish? && op.outcome == ResponseObserved
      && op.r.attemptId in db.attempts && db.attempts[op.r.attemptId].state != InFlight
    case DuplicateMcp => op.ReserveMcp? && op.o in db.mcp
    case McpMissing => op.AdmitMcp? && op.o !in db.mcp
    case McpProposalMismatch => op.AdmitMcp? && op.o in db.mcp && db.mcp[op.o].proposal != op.proposal
    case McpAlreadyAdmitted => op.AdmitMcp? && op.o in db.mcp && db.mcp[op.o].state != McpReserved
    case McpMissingOrCompleted =>
      op.FinishMcp? && (op.o in db.mcp ==> db.mcp[op.o].state == McpTerminal)
    case Unavailable =>
      || (op.Begin? && exists x :: x in db.fences && db.fences[x].fenceId == op.fenceId)
      || (op.Reserve? && !TokensFree(db, op.r))
      || (op.ReserveMcp? && exists x :: x in db.mcp && db.mcp[x].reservationId == op.reservationId)
  }

  lemma AccessReason(db: Ledger, cap: Option<Capability>, op: Op)
    requires Asked(op).Some? && FenceError(db, cap, Asked(op).value).Some?
    ensures ReasonHolds(db, cap, op, FenceError(db, cap, Asked(op).value).value)
  {
    AccessExactly(db, cap, Asked(op).value);
    if FenceError(db, cap, Asked(op).value).value == OtherFenceActive {
      var x :| Elsewhere(db, cap, Some(Asked(op).value), x);
      assert Elsewhere(db, cap, Asked(op), x);
    }
  }

  lemma PriorReason(db: Ledger, r: Reservation)
    requires Inv(db) && r.retry <= 1
    ensures match PriorError(db, r)
      case None => true
      case Some(DuplicateAttempt) => !SlotFree(db, r)
      case Some(RetryWithoutKnownCompletion) => r.retry == 1 && !exists id :: Retried(db, r, id)
      case Some(RetryIdentityMismatch) => r.retry == 1 && exists id :: Differs(db, r, id)
      case Some(_) => false
  {
    var e := PriorError(db, r);
    if e == Some(DuplicateAttempt) {
      var p :| p in Prior(db, r) && db.attempts[p].reservation.retry == r.retry;
      assert !SlotFree(db, r);
    } else if e.Some? {
      RetryExactly(db, r);
      assert SlotFree(db, r) by {
        assert forall x | x in db.attempts && SameSlot(db.attempts[x].reservation, r) :: x in Prior(db, r);
      }
      if e == Some(RetryIdentityMismatch) {
        var p :| p in Prior(db, r) && !SameIdentity(db.attempts[p].reservation, r);
        assert Differs(db, r, p);
      }
    }
  }

  lemma ReserveReason(db: Ledger, cap: Option<Capability>, r: Reservation)
    requires Inv(db) && !ReserveTxn(db, cap, r).Commit?
    ensures ReasonHolds(db, cap, Op.Reserve(r), ReserveTxn(db, cap, r).error)
  {
    if FenceError(db, cap, r.observation).Some? { AccessReason(db, cap, Op.Reserve(r)); }
    if r.retry <= 1 { PriorReason(db, r); }
    assert Used(db, r.role) == RoleAttempts(db.attempts, r.role);
    hide FenceError, PriorError, SlotFree, Retried, Differs, Inv, RoleAttempts, Used;
  }

  lemma BeginReason(db: Ledger, cap: Option<Capability>, o: Id, fenceId: Id)
    requires Inv(db) && !BeginTxn(db, cap, o, fenceId).Commit?
    ensures ReasonHolds(db, cap, Op.Begin(o, fenceId), BeginTxn(db, cap, o, fenceId).error)
  {
    if FenceError(db, cap, o).Some? { AccessReason(db, cap, Op.Begin(o, fenceId)); }
    QuietExactly(db);
    hide FenceError, Quiet, AnyPending, Inv;
  }

  lemma CloseReason(db: Ledger, cap: Option<Capability>, o: Id, summary: Id)
    requires !CloseTxn(db, cap, o, summary).Commit?
    ensures ReasonHolds(db, cap, Op.Close(o, summary), CloseTxn(db, cap, o, summary).error)
  {
    if FenceError(db, cap, o).Some? { AccessReason(db, cap, Op.Close(o, summary)); }
    hide FenceError;
  }

  lemma GateReason(db: Ledger, cap: Option<Capability>, op: Op)
    requires (op.AssertActive? || op.Join? || op.EnsureRecoverable?) && !Exec(db, cap, op).Commit?
    ensures ReasonHolds(db, cap, op, Exec(db, cap, op).error)
  {
    hide BeginTxn, CloseTxn, ReserveTxn, StartTxn, FinishTxn, ReserveMcpTxn, AdmitMcpTxn, FinishMcpTxn;
    QuietExactly(db);
    if op.AssertActive? && FenceError(db, cap, op.o).Some? {
      AccessReason(db, cap, op);
    } else if op.EnsureRecoverable? && cap.Some? {
      AccessExactly(db, cap, cap.value.observation);
    }
    hide FenceError, Quiet, AnyPending;
  }

  lemma RowReason(db: Ledger, cap: Option<Capability>, op: Op)
    requires (op.Start? || op.Finish?) && !Exec(db, cap, op).Commit?
    ensures ReasonHolds(db, cap, op, Exec(db, cap, op).error)
  {
    hide BeginTxn, CloseTxn, ReserveTxn, JoinTxn, AssertActiveTxn, ReserveMcpTxn, AdmitMcpTxn, FinishMcpTxn;
    if op.Start? && FenceError(db, cap, op.r.observation).Some? { AccessReason(db, cap, op); }
    hide FenceError, EnsureRecoverableTxn;
  }

  lemma McpReason(db: Ledger, cap: Option<Capability>, op: Op)
    requires (op.ReserveMcp? || op.AdmitMcp? || op.FinishMcp?) && !Exec(db, cap, op).Commit?
    ensures ReasonHolds(db, cap, op, Exec(db, cap, op).error)
  {
    hide BeginTxn, CloseTxn, ReserveTxn, StartTxn, FinishTxn, JoinTxn, AssertActiveTxn, EnsureRecoverableTxn;
    if !op.FinishMcp? && FenceError(db, cap, op.o).Some? { AccessReason(db, cap, op); }
    hide FenceError;
  }

  /** Before anything else is looked at, a stopped run says so, and an unstopped one names the fence in the way. */
  lemma FenceComesFirst(db: Ledger, cap: Option<Capability>, op: Op)
    requires Asked(op).Some? && !(op.Begin? && cap.Some? && cap.value.observation != op.o)
    requires op.Reserve? ==> (op.r.retry == 0 && op.r.retryReason.None?) || (op.r.retry == 1 && op.r.retryReason.Some?)
    ensures db.stopped ==> Exec(db, cap, op) == Raise(if op.Close? then StopClearanceNotAuthorized else RunStopped)
    ensures !db.stopped && (op.Begin? ==> cap.None?) ==>
      match FenceError(db, cap, Asked(op).value)
      case Some(e) => Exec(db, cap, op) == Raise(e)
      case None => MayAct(db, cap, Asked(op).value)
  {
    AccessExactly(db, cap, Asked(op).value);
    hide FenceError, MayAct, PriorError, TokenTaken, Bound, AnyUnsafe, AnyPending, AnyOpen, IsOpen, Holds, RoleAttempts;
  }

  /** No refusal names a false reason. */
  lemma RefusalIsTrue(db: Ledger, cap: Option<Capability>, op: Op)
    requires Inv(db) && !Exec(db, cap, op).Commit?
    ensures ReasonHolds(db, cap, op, Exec(db, cap, op).error)
  {
    hide Inv, ReasonHolds, BeginTxn, CloseTxn, ReserveTxn, StartTxn, FinishTxn, JoinTxn, AssertActiveTxn;
    hide ReserveMcpTxn, AdmitMcpTxn, FinishMcpTxn, EnsureRecoverableTxn;
    match op
    case Reserve(r) => ReserveReason(db, cap, r);
    case Begin(o, f) => BeginReason(db, cap, o, f);
    case Close(o, summary) => CloseReason(db, cap, o, summary);
    case Start(_) => RowReason(db, cap, op);
    case Finish(_, _) => RowReason(db, cap, op);
    case ReserveMcp(_, _, _) => McpReason(db, cap, op);
    case AdmitMcp(_, _) => McpReason(db, cap, op);
    case FinishMcp(_, _) => McpReason(db, cap, op);
    case Stop(_) =>
    case _ => GateReason(db, cap, op);
  }
}
