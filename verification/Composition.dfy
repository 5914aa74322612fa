/** run_synthetic_observation: one supervised observation whose stages may fail in
    any combination, over the shared ledger.  The question is when its fence may close. */
module Composition {
  import opened Options
  import opened Ledger
  import opened LedgerInvariant
  import opened LedgerRuns
  import opened LedgerExact
  import opened AttemptBudgetController
  import opened EvaluationWorld
  import opened BoundedProvider
  import opened RoleAdmission
  import HttpPrimary
  import CaptureAdmission

  /** How the graph session ended. */
  datatype Session = Finished(result: GraphResult) | Broken(errorClass: string, cancelled: bool)

  datatype GraphResult = GraphResult(
    completed: bool,               // result.status == "COMPLETED"
    envelope: bool,                // an envelope was observed
    verificationFailed: bool)      // FAILED_VALIDATION or RESULT_UNKNOWN

  /** The planner's transport as the supervisor reads it in the end. */
  datatype PlannerView = PlannerView(acceptance: Option<real>, events: seq<TransportEvent>)

  /** What each stage yields; every combination is possible. */
  datatype Stages = Stages(
    setupFails: bool,              // directory, config file, fixture server or providers
    proposals: seq<Proposal>,      // what the session does with the planner
    session: Session,
    supervisorCaptured: bool,      // shutdown, evidence write and read back
    serverExitFails: bool,         // leaving the fixture server raises
    readersRaise: bool,            // an exception the capture readers do not catch
    governanceAvailable: bool,
    dispatchAvailable: bool,
    backendAvailable: bool,
    workerCaptured: bool,
    admissionRaises: bool,         // an exception the three admissions do not catch
    supervisor: HttpPrimary.Primary,
    worker: HttpPrimary.Primary,
    leases: seq<HttpPrimary.Lease>,       // the other rows of the coordinator's snapshot
    facts: seq<HttpPrimary.Facts>,
    capture: CaptureAdmission.Capture,
    expected: CaptureAdmission.Expected,
    mcpCustodyClean: bool,         // acknowledged, not incomplete, no stop attempted
    summaryWritten: bool)

  datatype CaptureError =
    | GovernanceUnavailable
    | DispatchUnavailable
    | BackendUnavailable
    | WorkerHttpUnavailable
    | SnapshotUnknown
    | SupervisorHttpUncorrelated
    | WorkerHttpUncorrelated
    | BackendIncompleteOrMismatched

  datatype FenceClose = NotAttempted | Unknown | Acknowledged

  datatype Summary = Summary(
    error: Option<string>, rootStopAttempted: bool, projectionVerified: bool, captureErrors: seq<CaptureError>)

  datatype Ending =
    | NotAdmitted                  // ensure_recoverable or begin refused
    | Escaped                      // an exception left the call
    | Reported(summary: Summary, persisted: bool, close: FenceClose)

  /** Every capture was read. */
  predicate Captured(x: Stages) {
    x.supervisorCaptured && x.governanceAvailable && x.dispatchAvailable && x.backendAvailable && x.workerCaptured
  }

  /** The supervisor's own capture, with the planner's events as its transport recorded them. */
  function SupervisorEvidence(x: Stages, planner: PlannerView): HttpPrimary.Primary {
    x.supervisor.(captured := x.supervisor.captured.(events := planner.events))
  }

  predicate SupervisorCorrelates(x: Stages, planner: PlannerView, o: Id, db: Ledger) {
    HttpPrimary.Validates(SupervisorEvidence(x, planner), Planner, o, HttpPrimary.Snapshot(db, x.leases, x.facts))
  }

  predicate WorkerCorrelates(x: Stages, o: Id, db: Ledger) {
    HttpPrimary.Validates(x.worker, Judge, o, HttpPrimary.Snapshot(db, x.leases, x.facts))
  }

  predicate BackendAdmitted(x: Stages) { CaptureAdmission.Admit(x.capture, x.expected) != CaptureAdmission.Rejected }

  /** Both HTTP captures agree with the ledger of the snapshot, and the backend capture is admitted. */
  predicate Admitted(x: Stages, planner: PlannerView, o: Id, db: Ledger) {
    SupervisorCorrelates(x, planner, o, db) && WorkerCorrelates(x, o, db) && BackendAdmitted(x)
  }

  predicate Accepts(events: seq<TransportEvent>) { exists e | e in events :: e.RoleAccepted? }
  predicate Stops(events: seq<TransportEvent>) { exists e | e in events :: e.StopEvent? }

  /** The session itself ended cleanly. */
  predicate Clean(x: Stages, planner: PlannerView, o: Id, db: Ledger) {
    && x.session.Finished? && x.session.result.completed && x.session.result.envelope
    && !x.session.result.verificationFailed && x.mcpCustodyClean && planner.acceptance.Some?
    && (HttpPrimary.Current(db, o, Judge) != {} ==> Accepts(x.worker.captured.events))
    && !Stops(planner.events) && !Stops(x.worker.captured.events)
  }

  /** An exception that leaves run_synthetic_observation. */
  predicate Escapes(x: Stages) {
    || x.setupFails || (x.session.Broken? && x.session.cancelled) || x.serverExitFails
    || x.readersRaise || x.admissionRaises
  }

  // ---- From the snapshot to the close ----

  predicate ReservesFor(e: Event, o: Id) { e.Call? && e.op.Reserve? && e.op.r.observation == o }

  predicate SameReservations(a: Ledger, b: Ledger, o: Id) {
    forall role ::
      && HttpPrimary.Current(a, o, role) == HttpPrimary.Current(b, o, role)
      && forall id | id in HttpPrimary.Current(a, o, role) :: b.attempts[id].reservation == a.attempts[id].reservation
  }

  lemma ReservationsAgree(a: Ledger, b: Ledger, o: Id)
    requires forall id | id in a.attempts ::
      id in b.attempts && b.attempts[id].reservation == a.attempts[id].reservation
    requires forall id | id in b.attempts && id !in a.attempts :: b.attempts[id].reservation.observation != o
    ensures SameReservations(a, b, o)
  {
  }

  lemma ExecKeepsReservations(db: Ledger, cap: Option<Capability>, op: Op, o: Id)
    requires !(op.Reserve? && op.r.observation == o) && !Exec(db, cap, op).Rejected()
            && Evolves(db, Exec(db, cap, op).db)
    ensures SameReservations(db, Exec(db, cap, op).db, o)
  {
    hide SameReservations;
    var db' := Exec(db, cap, op).db;
    if op.Reserve? { ReserveAddsOne(db, cap, op.r); } else { OthersReserveNothing(db, cap, op); }
    hide Exec;
    forall id | id in db.attempts
      ensures id in db'.attempts && db'.attempts[id].reservation == db.attempts[id].reservation
    {
      assert AttemptEvolves(db.attempts[id], db'.attempts[id]);
    }
    ReservationsAgree(db, db', o);
  }

  lemma OthersReserveNothing(db: Ledger, cap: Option<Capability>, op: Op)
    requires !op.Reserve? && !Exec(db, cap, op).Rejected()
    ensures Exec(db, cap, op).db.attempts.Keys == db.attempts.Keys
  {
    hide ReserveTxn, FenceError, AnyUnsafe, AnyPending, AnyOpen, Holds, IsOpen, BeginError;
  }

  lemma ReserveAddsOne(db: Ledger, cap: Option<Capability>, r: Reservation)
    requires !ReserveTxn(db, cap, r).Rejected()
    ensures forall id | id in ReserveTxn(db, cap, r).db.attempts && id !in db.attempts ::
      ReserveTxn(db, cap, r).db.attempts[id].reservation == r
  {
    hide ReserveError, TokenTaken, RoleAttempts;
  }

  lemma StepKeepsReservations(s: System, e: Event, o: Id)
    requires SysInv(s) && !ReservesFor(e, o)
    ensures SameReservations(s.db, Next(s, e).db, o)
  {
    if e.Call? && e.pid in s.caps {
      var txn := Exec(s.db, s.caps[e.pid], e.op);
      ExecGood(s.db, s.caps[e.pid], e.op);
      if !txn.Rejected() { ExecKeepsReservations(s.db, s.caps[e.pid], e.op, o); }
    }
    hide Exec;
  }

  /** A foreign run that reserves nothing for an observation leaves its reservations as they are. */
  lemma {:induction false} RunKeepsReservations(s: System, es: seq<Event>, o: Id)
    requires SysInv(s) && forall e | e in es :: !ReservesFor(e, o)
    ensures SameReservations(s.db, Run(s, es).db, o)
    decreases |es|
  {
    if es != [] {
      StepGood(s, es[0]);
      StepKeepsReservations(s, es[0], o);
      RunKeepsReservations(Next(s, es[0]), es[1..], o);
    }
  }

  /** What was correlated with one ledger is correlated with every ledger of the same reservations. */
  lemma AdmittedStands(x: Stages, planner: PlannerView, o: Id, a: Ledger, b: Ledger)
    requires Admitted(x, planner, o, a) && SameReservations(a, b, o)
    ensures Admitted(x, planner, o, b)
  {
    var s := HttpPrimary.Snapshot(a, x.leases, x.facts);
    HttpPrimary.ValidationStands(SupervisorEvidence(x, planner), Planner, o, s, b);
    HttpPrimary.ValidationStands(x.worker, Judge, o, s, b);
  }

  /** Each role was used once at most for the observation, and nothing retried. */
  predicate UsedOnce(o: Id, db: Ledger) {
    && (forall role :: |HttpPrimary.Current(db, o, role)| <= 1)
    && forall id | id in db.attempts && db.attempts[id].reservation.observation == o ::
         db.attempts[id].reservation.retry == 0
  }

  /** An admitted observation used each role once at most and retried nothing. */
  lemma AdmittedOnce(x: Stages, planner: PlannerView, o: Id, db: Ledger)
    requires Inv(db) && Admitted(x, planner, o, db)
    ensures UsedOnce(o, db)
  {
    hide Inv, HttpPrimary.Validates, BackendAdmitted, SupervisorEvidence;
    var s := HttpPrimary.Snapshot(db, x.leases, x.facts);
    HttpPrimary.ValidatedOnce(SupervisorEvidence(x, planner), Planner, o, s);
    HttpPrimary.ValidatedOnce(x.worker, Judge, o, s);
    forall id | id in db.attempts && db.attempts[id].reservation.observation == o
      ensures db.attempts[id].reservation.retry == 0
    {
      assert id in HttpPrimary.Current(db, o, db.attempts[id].reservation.role);
    }
  }

  /** The planner's attempt r of observation o ended with its response. */
  predicate PlannerDelivered(db: Ledger, o: Id, r: Reservation) {
    r.observation == o && r.role == Planner && r.retry == 0 && Delivered(db, r)
  }

  lemma DeliveryOutlasts(a: Ledger, b: Ledger, o: Id, r: Reservation)
    requires PlannerDelivered(a, o, r) && Evolves(a, b)
    ensures PlannerDelivered(b, o, r)
  {
    assert AttemptEvolves(a.attempts[r.attemptId], b.attempts[r.attemptId]);
  }

  /** Where each role was used once, a delivered planner attempt is the planner's only one. */
  lemma DeliveredAlone(db: Ledger, o: Id, r: Reservation)
    requires UsedOnce(o, db) && PlannerDelivered(db, o, r)
    ensures HttpPrimary.Current(db, o, Planner) == {r.attemptId}
  {
    var current := HttpPrimary.Current(db, o, Planner);
    assert r.attemptId in current && |current| == 1 by { assert |current - {r.attemptId}| == |current| - 1; }
    forall id | id in current ensures id == r.attemptId { HttpPrimary.Alone(current, id, r.attemptId); }
  }

  /** Nobody but the planner's transport presents the reservations of its attempts. */
  ghost predicate Private(proposals: seq<Proposal>, world: World) {
    forall p, c | p in proposals && c in p.calls :: world.Excludes(c.attemptId)
  }

  /** The session uses the planner as often as it likes, whatever comes of it. */
  method Propose(t: AdmittedRoleTransport, proposals: seq<Proposal>)
    requires t.Valid() && Private(proposals, t.base.world)
    modifies t`configured, t.base
    modifies t.base.world`caps, t.base.world`turns, t.base.world`ticks, t.base.world`latest, t.base.world`mark
    modifies t.base.world.store
    ensures t.Valid()
    ensures |proposals| == 1 && t.base.world.Calm(old(t.base.world.turns), 6) && old(t.Expects(proposals[0])) ==>
      && t.Accepted(old(t.base.events)) && t.base.world.turns == old(t.base.world.turns) + 6
      && t.base.world.store.db
         == AnsweredLedger(old(t.base.world.store.db), t.base.budget.active, t.Wanted(proposals[0]))
  {
    hide AdmittedRoleTransport.Valid, World.Calm, AnsweredLedger, Admissible;
    hide AdmittedRoleTransport.Accepted;
    for i := 0 to |proposals|
      invariant t.Valid()
      invariant i == 0 ==> unchanged(t) && unchanged(t.base) && unchanged(t.base.world) && unchanged(t.base.world.store)
      invariant i == 1 && t.base.world.Calm(old(t.base.world.turns), 6) && old(t.Expects(proposals[0])) ==>
        && t.Accepted(old(t.base.events)) && t.base.world.turns == old(t.base.world.turns) + 6
        && t.base.world.store.db
           == AnsweredLedger(old(t.base.world.store.db), t.base.budget.active, t.Wanted(proposals[0]))
    {
      assert proposals[i] in proposals;
      var _ := t.PerformRole(proposals[i]);
    }
  }

  // ---- A run without incidents ----

  /** The restart gate and the begin of o are granted. */
  ghost predicate Openable(db: Ledger, o: Id, fenceId: Id) {
    && !db.stopped && Quiet(db) && o !in db.fences && Countable(db, o)
    && forall x | x in db.fences :: db.fences[x].state == Closed && db.fences[x].fenceId != fenceId
  }

  function OpenedLedger(db: Ledger, o: Id, fenceId: Id): Ledger {
    db.(observations := db.observations + {o}, fences := db.fences[o := Fence(fenceId, Open, None)])
  }

  /** The observation opened, and the attempt r answered in it. */
  function ServedLedger(db: Ledger, o: Id, fenceId: Id, r: Reservation): Ledger {
    OpenedLedger(db, o, fenceId).(
      attempts := db.attempts[r.attemptId := Attempt(r, Terminal, Some(ResponseObserved))])
  }

  lemma OpenableOpens(db: Ledger, o: Id, fenceId: Id)
    requires Openable(db, o, fenceId)
    ensures EnsureRecoverableTxn(db, None) == Commit(db)
    ensures BeginTxn(db, None, o, fenceId) == Commit(OpenedLedger(db, o, fenceId))
  {
    RecoverableExactly(db, None);
    BeginExactly(db, o, fenceId);
    hide EnsureRecoverableTxn, BeginTxn, Quiet, Countable;
  }

  /** The observation has no attempt yet, and the planner's budget and the tokens of r are free. */
  ghost predicate Unused(db: Ledger, o: Id, r: Reservation) {
    && (forall id | id in db.attempts :: db.attempts[id].reservation.observation != o)
    && TokensFree(db, r) && |Used(db, Planner)| < db.limits.planner
  }

  lemma OpenedServes(db: Ledger, o: Id, fenceId: Id, r: Reservation)
    requires Inv(db) && Openable(db, o, fenceId) && Unused(db, o, r)
    requires r.observation == o && r.role == Planner && r.retry == 0 && r.retryReason.None?
    ensures Admissible(OpenedLedger(db, o, fenceId), Some(Capability(o, fenceId)), r)
    ensures AnsweredLedger(OpenedLedger(db, o, fenceId), Some(Capability(o, fenceId)), r)
         == ServedLedger(db, o, fenceId, r)
  {
    var cap, opening := Some(Capability(o, fenceId)), OpenedLedger(db, o, fenceId);
    OpenableOpens(db, o, fenceId);
    BeginGood(db, None, o, fenceId);
    assert Inv(opening) by { hide Inv; }
    OpenedGrants(db, o, fenceId, r);
    hide Inv, ReserveTxn, StartTxn, FinishTxn, AssertActiveTxn, BeginTxn, EnsureRecoverableTxn, Quiet;
    ReserveWrites(opening, cap, r);
    AdmissibleChain(opening, cap, r);
    var reserved := ReserveTxn(opening, cap, r).db;
    StartExactly(reserved, cap, r);
    FinishExactly(StartTxn(reserved, cap, r).db, r, ResponseObserved);
  }

  lemma OpenedGrants(db: Ledger, o: Id, fenceId: Id, r: Reservation)
    requires Inv(OpenedLedger(db, o, fenceId)) && !db.stopped && Unused(db, o, r)
    requires forall x | x in db.fences :: db.fences[x].state == Closed
    requires r.observation == o && r.role == Planner && r.retry == 0 && r.retryReason.None?
    ensures ReserveTxn(OpenedLedger(db, o, fenceId), Some(Capability(o, fenceId)), r).Commit?
    ensures AssertActiveTxn(OpenedLedger(db, o, fenceId), Some(Capability(o, fenceId)), o).Commit?
  {
    var cap, opening := Some(Capability(o, fenceId)), OpenedLedger(db, o, fenceId);
    ReserveExactly(opening, cap, r);
    ActiveExactly(opening, cap, o);
    hide Inv, ReserveTxn, AssertActiveTxn;
    assert Used(opening, Planner) == Used(db, Planner);
  }

  class Supervisor {
    const budget: AttemptBudget
    const world: World
    const observation: Id
    const deadlines: DeadlinePlan
    const model: Id
    const delegate: Id
    var planner: PlannerView
    var error: Option<string>
    var rootStopAttempted: bool
    var rootStopAcknowledged: Option<bool>
    var captureErrors: seq<CaptureError>
    ghost var exchange: Option<Reservation>   // the planner's attempt

    ghost predicate Base()
      reads budget, world, world.store
    {
      && budget.store == world.store && budget.Valid() && world.Valid() && deadlines.Valid()
      && world.NoForeignClose(observation) && observation !in world.guarded
    }

    /** While the observation runs, its fence is open and its own, an error and a stop go together, and the planner's
        acceptance stands for a response in the ledger. */
    ghost predicate Running()
      reads this`error, this`rootStopAttempted, this`planner, this`exchange, budget, world, world.store
    {
      && Base() && (error.Some? <==> rootStopAttempted)
      && IsOpen(world.store.db.fences, observation) && Holds(world.store.db.fences, budget.active, observation)
      && (planner.acceptance.Some? ==> PlannerStands(world.store.db))
    }

    ghost predicate PlannerStands(db: Ledger)
      reads this`exchange
    {
      exchange.Some? && PlannerDelivered(db, observation, exchange.value)
    }

    /** The attempt that the planner's provider asks for. */
    ghost function Asked(p: Proposal): Reservation
      requires |p.calls| == 1
    {
      FirstAttempt(p, observation, Planner, model)
    }

    /** The session uses the planner once, its provider behaves well, and the ledger and the clock admit the attempt. */
    ghost predicate Promising(proposals: seq<Proposal>)
      reads budget, world, world.store
    {
      && |proposals| == 1 && WellBehaved(proposals[0], model)
      && world.clock(world.ticks + 18) < world.clock(world.ticks) + deadlines.attempt
      && Admissible(world.store.db, budget.active, Asked(proposals[0]))
    }

    /** The planner was accepted, and its attempt is all that happened to the ledger. */
    ghost predicate Served(before: Ledger, p: Proposal)
      requires |p.calls| == 1 && Admissible(before, budget.active, Asked(p))
      reads this`planner, budget, world, world.store
    {
      && planner.acceptance.Some? && !Stops(planner.events)
      && world.store.db == AnsweredLedger(before, budget.active, Asked(p))
    }

    predicate Fresh()
      reads this
    {
      error == None && !rootStopAttempted && captureErrors == [] && planner == PlannerView(None, [])
    }

    constructor (budget: AttemptBudget, world: World, observation: Id, deadlines: DeadlinePlan, model: Id, delegate: Id)
      requires budget.store == world.store && budget.Valid() && world.Valid() && deadlines.Valid()
      requires world.NoForeignClose(observation) && observation !in world.guarded
      ensures Base() && Fresh()
      ensures this.budget == budget && this.world == world && this.observation == observation
      ensures this.deadlines == deadlines && this.model == model
    {
      this.budget, this.world, this.observation := budget, world, observation;
      this.deadlines, this.model, this.delegate := deadlines, model, delegate;
      error, rootStopAttempted, rootStopAcknowledged, captureErrors := None, false, None, [];
      planner, exchange := PlannerView(None, []), None;
    }

    /** error = error or reason; request_stop(reason). */
    method Fail(reason: string)
      requires Running()
      modifies this`error, this`rootStopAttempted, this`rootStopAcknowledged, world`caps, world`turns, world.store
      ensures Running() && rootStopAttempted
      ensures error == if old(error).Some? then old(error) else Some(reason)
      ensures rootStopAcknowledged == Some(world.Acked(old(world.turns), 1))
      ensures rootStopAcknowledged == Some(true) ==> world.store.db.stopped
    {
      hide Inv, Evolves, SysInv, PlannerDelivered;
      if error.None? {
        error := Some(reason);
      }
      rootStopAttempted := true;
      var reply := world.Stop(budget, reason);
      rootStopAcknowledged := Some(reply.Ok?);
      PlannerOutlasts(old(world.store.db), world.store.db);
    }

    lemma PlannerOutlasts(a: Ledger, b: Ledger)
      requires Evolves(a, b)
      ensures PlannerStands(a) ==> PlannerStands(b)
    {
      if PlannerStands(a) { DeliveryOutlasts(a, b, observation, exchange.value); }
    }

    /** The planner's transport, from its construction through everything the session does with it. */
    method UsePlanner(proposals: seq<Proposal>) returns (t: AdmittedRoleTransport)
      requires Running() && Private(proposals, world)
      modifies this`planner, this`exchange
      modifies world`caps, world`turns, world`ticks, world`latest, world`mark, world`guarded, world.store
      ensures Running() && fresh(t) && fresh(t.base)
      ensures planner == PlannerView(t.base.acceptance, t.base.events)
      ensures planner.acceptance.Some? ==>
        |t.base.requests| == 1 && planner.acceptance.value < t.base.requests[0] + deadlines.attempt
      ensures world.Calm(old(world.turns), 6) && old(Promising(proposals)) ==>
        Served(old(world.store.db), proposals[0]) && world.turns == old(world.turns) + 6
    {
      hide Inv, Evolves, SysInv, Private, PlannerDelivered, World.Valid, AdmittedRoleTransport.Valid;
      hide Admissible, AnsweredLedger, WellBehaved, World.Calm, Stops;
      world.Guard(observation);
      t := NewPlanner();
      Propose(t, proposals);
      AcceptedWithoutStop(t);
      AcceptedIsDelivered(t);
      world.GuardedIsOpen(observation);
      planner := PlannerView(t.base.acceptance, t.base.events);
      exchange := t.base.custody;
      world.Release(observation);
    }

    method NewPlanner() returns (t: AdmittedRoleTransport)
      requires budget.store == world.store && budget.Valid() && world.Valid() && deadlines.Valid()
      ensures fresh(t) && fresh(t.base) && t.Valid()
      ensures t.base.budget == budget && t.base.world == world && t.base.deadlines == deadlines
      ensures t.base.observation == observation && t.base.role == Planner && t.base.requestedModel == model
      ensures t.Fresh() && t.base.events == []
    {
      var base := new BudgetedTransport(budget, world, observation, Planner, model, deadlines, delegate);
      t := new AdmittedRoleTransport(base);
    }

    lemma AcceptedWithoutStop(t: AdmittedRoleTransport)
      ensures t.Accepted([]) ==> t.base.acceptance.Some? && !Stops(t.base.events)
    {
    }

    lemma AcceptedIsDelivered(t: AdmittedRoleTransport)
      requires t.Valid() && t.base.observation == observation && t.base.role == Planner
      ensures t.base.budget.Valid() && t.base.world.Valid()
      ensures t.base.acceptance.Some? ==>
        && t.base.custody.Some? && PlannerDelivered(t.base.world.store.db, observation, t.base.custody.value)
        && |t.base.requests| == 1 && t.base.acceptance.value < t.base.requests[0] + t.base.deadlines.attempt
    {
      hide Inv, Evolves, SysInv;
      if t.base.acceptance.Some? {
        AcceptanceMeansOneExchange(t.base);
        AcceptedOnTime(t);
      }
    }

    /** The first error of the session and of the supervisor's capture of it. */
    function SessionError(x: Stages): Option<string> {
      if x.session.Broken? then Some(x.session.errorClass)
      else if !x.supervisorCaptured then Some("SUPERVISOR_CAPTURE_CUSTODY_UNACKNOWLEDGED")
      else None
    }

    /** The session and the supervisor capture in its finally clause. */
    method RunSession(x: Stages) returns (cancelled: bool, ghost used: AdmittedRoleTransport)
      requires Running() && !rootStopAttempted && error.None? && Private(x.proposals, world)
      modifies this`planner, this`exchange, this`error, this`rootStopAttempted, this`rootStopAcknowledged
      modifies world`caps, world`turns, world`ticks, world`latest, world`mark, world`guarded, world.store
      ensures Running()
      ensures rootStopAttempted <==> x.session.Broken? || !x.supervisorCaptured
      ensures cancelled <==> x.session.Broken? && x.session.cancelled
      ensures used.base.shutdown && planner == PlannerView(used.base.acceptance, used.base.events)
      ensures error == SessionError(x)
      ensures x.session.Finished? && x.supervisorCaptured
              && world.Calm(old(world.turns), 6) && old(Promising(x.proposals)) ==>
        Served(old(world.store.db), x.proposals[0]) && world.turns == old(world.turns) + 6
    {
      hide Inv, Evolves, SysInv, Running, Private, BudgetedTransport.Valid, Promising, Served, World.Calm;
      var t := UsePlanner(x.proposals);
      cancelled := false;
      if x.session.Broken? {
        Fail(x.session.errorClass);
        cancelled := x.session.cancelled;
      }
      t.base.Shutdown();
      used := t;
      if !x.supervisorCaptured {
        Fail("SUPERVISOR_CAPTURE_CUSTODY_UNACKNOWLEDGED");
      }
    }

    /** The streams reported unavailable are exactly those that were. */
    predicate StreamErrors(x: Stages)
      reads this`captureErrors
    {
      && (GovernanceUnavailable in captureErrors <==> !x.governanceAvailable)
      && (DispatchUnavailable in captureErrors <==> !x.dispatchAvailable)
      && (BackendUnavailable in captureErrors <==> !x.backendAvailable)
      && (WorkerHttpUnavailable in captureErrors <==> !x.workerCaptured)
    }

    /** The rejected captures are exactly those that do not agree with this ledger, or were not read. */
    predicate AdmissionErrors(x: Stages, known: bool, db: Ledger)
      reads this`captureErrors, this`planner
    {
      && (SnapshotUnknown in captureErrors <==> !known)
      && (SupervisorHttpUncorrelated in captureErrors <==>
            !known || !x.supervisorCaptured || !SupervisorCorrelates(x, planner, observation, db))
      && (WorkerHttpUncorrelated in captureErrors <==>
            !known || !x.workerCaptured || !WorkerCorrelates(x, observation, db))
      && (BackendIncompleteOrMismatched in captureErrors <==> !BackendAdmitted(x))
    }

    method ReadCaptures(x: Stages)
      requires Running() && captureErrors == []
      modifies this`captureErrors, this`error, this`rootStopAttempted, this`rootStopAcknowledged
      modifies world`caps, world`turns, world.store
      ensures Running()
      ensures captureErrors == [] <==>
        x.governanceAvailable && x.dispatchAvailable && x.backendAvailable && x.workerCaptured
      ensures SnapshotUnknown !in captureErrors
      ensures StreamErrors(x)
      ensures SupervisorHttpUncorrelated !in captureErrors && WorkerHttpUncorrelated !in captureErrors
      ensures BackendIncompleteOrMismatched !in captureErrors
      ensures error == if old(error).Some? || captureErrors == [] then old(error)
                       else Some("PRIMARY_EVIDENCE_UNAVAILABLE")
      ensures rootStopAttempted <==> old(rootStopAttempted) || captureErrors != []
      ensures captureErrors == [] ==> unchanged(world) && unchanged(world.store)
    {
      hide Inv, Evolves, SysInv, Running, StreamErrors;
      ReadStreams(x);
      if captureErrors != [] {
        Fail("PRIMARY_EVIDENCE_UNAVAILABLE");
      }
    }

    method ReadStreams(x: Stages)
      requires captureErrors == []
      modifies this`captureErrors
      ensures captureErrors == [] <==>
        x.governanceAvailable && x.dispatchAvailable && x.backendAvailable && x.workerCaptured
      ensures StreamErrors(x) && SnapshotUnknown !in captureErrors
      ensures SupervisorHttpUncorrelated !in captureErrors && WorkerHttpUncorrelated !in captureErrors
      ensures BackendIncompleteOrMismatched !in captureErrors
    {
      if !x.governanceAvailable { captureErrors := captureErrors + [GovernanceUnavailable]; }
      if !x.dispatchAvailable { captureErrors := captureErrors + [DispatchUnavailable]; }
      if !x.backendAvailable { captureErrors := captureErrors + [BackendUnavailable]; }
      if !x.workerCaptured { captureErrors := captureErrors + [WorkerHttpUnavailable]; }
    }

    /** The coordinator snapshot and the three admissions that depend on it. */
    method AdmitCaptures(x: Stages) returns (state: Option<Ledger>, ghost atSnapshot: Ledger)
      requires Running() && SnapshotUnknown !in captureErrors && (captureErrors != [] ==> rootStopAttempted)
      requires SupervisorHttpUncorrelated !in captureErrors && WorkerHttpUncorrelated !in captureErrors
      requires BackendIncompleteOrMismatched !in captureErrors && StreamErrors(x)
      modifies this`captureErrors, this`error, this`rootStopAttempted, this`rootStopAcknowledged
      modifies world`caps, world`turns, world.store
      ensures Running() && Inv(atSnapshot) && atSnapshot == old(world.Met()).db
      ensures SnapshotUnknown in captureErrors <==> !world.Acked(old(world.turns), 1)
      ensures captureErrors == [] <==>
        && old(captureErrors) == [] && SnapshotUnknown !in captureErrors
        && x.supervisorCaptured && x.workerCaptured && Admitted(x, planner, observation, atSnapshot)
      ensures rootStopAttempted <==> old(rootStopAttempted) || captureErrors != []
      ensures StreamErrors(x) && AdmissionErrors(x, world.Acked(old(world.turns), 1), atSnapshot)
      ensures error == if old(error).Some? || captureErrors == [] then old(error)
                       else if SnapshotUnknown in captureErrors then Some("COORDINATOR_SNAPSHOT_UNKNOWN")
                       else Some("PRIMARY_CAPTURE_INCOMPLETE")
      ensures !rootStopAttempted ==>
        state == Some(atSnapshot) && world.store.db == atSnapshot && world.turns == old(world.turns) + 1
    {
      hide Inv, Evolves, SysInv, Admitted, Running, World.Met, World.Acked;
      hide StreamErrors, AdmissionErrors, SupervisorCorrelates, WorkerCorrelates, BackendAdmitted;
      state, atSnapshot := TakeSnapshot();
      if state.None? {
        NoteUnknownSnapshot(x);
        Fail("COORDINATOR_SNAPSHOT_UNKNOWN");
      }
      Correlate(x, state, atSnapshot);
      if captureErrors != [] {
        Fail("PRIMARY_CAPTURE_INCOMPLETE");
      }
      if rootStopAttempted {
        ghost var last;
        state, last := TakeSnapshot();
      }
    }

    method NoteUnknownSnapshot(x: Stages)
      requires StreamErrors(x) && SupervisorHttpUncorrelated !in captureErrors
      requires WorkerHttpUncorrelated !in captureErrors && BackendIncompleteOrMismatched !in captureErrors
      modifies this`captureErrors
      ensures StreamErrors(x) && captureErrors == old(captureErrors) + [SnapshotUnknown]
      ensures SnapshotUnknown in captureErrors && SupervisorHttpUncorrelated !in captureErrors
      ensures WorkerHttpUncorrelated !in captureErrors && BackendIncompleteOrMismatched !in captureErrors
    {
      captureErrors := captureErrors + [SnapshotUnknown];
    }

    method TakeSnapshot() returns (state: Option<Ledger>, ghost read: Ledger)
      requires Running()
      modifies world`caps, world`turns, world.store
      ensures Running() && Inv(read) && read == world.store.db == old(world.Met()).db
      ensures world.turns == old(world.turns) + 1
      ensures state == if world.Acked(old(world.turns), 1) then Some(read) else None
    {
      hide Inv, Evolves, SysInv, PlannerDelivered;
      state := world.Snapshot(budget);
      read := world.store.db;
      assert Inv(read) by { assert budget.Valid(); }
      PlannerOutlasts(old(world.store.db), read);
    }

    method Correlate(x: Stages, state: Option<Ledger>, ghost db: Ledger)
      requires state.Some? ==> state.value == db
      requires SnapshotUnknown in captureErrors <==> state.None?
      requires SupervisorHttpUncorrelated !in captureErrors && WorkerHttpUncorrelated !in captureErrors
      requires BackendIncompleteOrMismatched !in captureErrors
      modifies this`captureErrors
      ensures captureErrors == [] <==>
        && old(captureErrors) == [] && state.Some?
        && x.supervisorCaptured && x.workerCaptured && Admitted(x, planner, observation, state.value)
      ensures SnapshotUnknown in captureErrors <==> SnapshotUnknown in old(captureErrors)
      ensures old(StreamErrors(x)) ==> StreamErrors(x)
      ensures AdmissionErrors(x, state.Some?, db)
    {
      hide SupervisorCorrelates, WorkerCorrelates, BackendAdmitted;
      if state.None? || !x.supervisorCaptured || !SupervisorCorrelates(x, planner, observation, state.value) {
        captureErrors := captureErrors + [SupervisorHttpUncorrelated];
      }
      if state.None? || !x.workerCaptured || !WorkerCorrelates(x, observation, state.value) {
        captureErrors := captureErrors + [WorkerHttpUncorrelated];
      }
      if !BackendAdmitted(x) {
        captureErrors := captureErrors + [BackendIncompleteOrMismatched];
      }
    }

    /** The summary, its persistence, and the close decision. */
    method Finalise(x: Stages, state: Option<Ledger>, summaryDigest: Id) returns (ending: Ending, ghost atClose: Ledger)
      requires Running()
      requires !rootStopAttempted ==>
        state.Some? && captureErrors == [] && Captured(x) && Admitted(x, planner, observation, state.value)
      modifies this`rootStopAttempted, this`rootStopAcknowledged, budget`active, world`caps, world`turns, world.store
      ensures Base() && ending.Reported?
      ensures ending.summary ==
        if x.summaryWritten then Summary(error, old(rootStopAttempted), captureErrors == [], captureErrors)
        else Summary(Some("FINAL_SUMMARY_CUSTODY_UNKNOWN"), true, false, captureErrors)
      ensures !x.summaryWritten ==>
        && rootStopAttempted && rootStopAcknowledged == Some(world.Acked(old(world.turns), 1))
        && (world.Acked(old(world.turns), 1) ==> world.store.db.stopped)
      ensures ending.persisted <==> x.summaryWritten
      ensures ending.close != NotAttempted <==>
        && x.summaryWritten && !old(rootStopAttempted)
        && Clean(x, planner, observation, state.value) && !state.value.stopped
      ensures ending.close == NotAttempted ==> IsOpen(world.store.db.fences, observation)
      ensures ending.close != NotAttempted ==> atClose == old(world.Met()).db && world.turns == old(world.turns) + 1
      ensures ending.close != NotAttempted ==> Inv(atClose) && PlannerStands(atClose) && Decided(ending, atClose)
      ensures !IsOpen(world.store.db.fences, observation) ==> ClosedSafely(ending, atClose, summaryDigest)
      ensures ending.close == FenceClose.Acknowledged ==> !IsOpen(world.store.db.fences, observation)
    {
      hide Inv, Evolves, SysInv, Captured, Admitted, CloseTxn, AnyPending, PlannerDelivered;
      hide Stops, Accepts, HttpPrimary.Current;
      atClose := world.store.db;
      var summary := Summary(error, rootStopAttempted, captureErrors == [], captureErrors);
      var safe :=
        && error.None? && state.Some? && !state.value.stopped && captureErrors == []
        && x.session.Finished? && x.session.result.completed && x.mcpCustodyClean && planner.acceptance.Some?
        && (HttpPrimary.Current(state.value, observation, Judge) == {} || Accepts(x.worker.captured.events))
        && x.session.result.envelope && !x.session.result.verificationFailed
        && !Stops(planner.events) && !Stops(x.worker.captured.events) && !rootStopAttempted;
      if !x.summaryWritten {
        var reply := world.Stop(budget, "FINAL_SUMMARY_CUSTODY_UNKNOWN");
        rootStopAttempted, rootStopAcknowledged := true, Some(reply.Ok?);
        summary := Summary(Some("FINAL_SUMMARY_CUSTODY_UNKNOWN"), true, false, captureErrors);
        return Reported(summary, false, NotAttempted), atClose;
      }
      if !safe {
        return Reported(summary, true, NotAttempted), atClose;
      }
      var reply;
      reply, atClose := world.Close(budget, observation, summaryDigest);
      PlannerOutlasts(old(world.store.db), atClose);
      ending := Reported(summary, true, if reply.Ok? then FenceClose.Acknowledged else Unknown);
    }

    /** The attempted close of an observation was acknowledged exactly when its commit was, on a ledger that was
        unstopped with nothing pending. */
    ghost predicate Decided(ending: Ending, atClose: Ledger)
      requires ending.Reported?
      reads world
    {
      ending.close == FenceClose.Acknowledged <==>
        world.turns > 0 && world.Acked(world.turns - 1, 1) && !atClose.stopped && !AnyPending(atClose)
    }

    /** The supervisor's capture, with the events its planner recorded, agrees with the ledger on the planner. */
    predicate PlannerValidated(x: Stages, db: Ledger)
      reads this`planner
    {
      HttpPrimary.Validates(x.supervisor.(captured := x.supervisor.captured.(events := planner.events)), Planner,
                            observation, HttpPrimary.Snapshot(db, x.leases, x.facts))
    }

    /** The worker's capture agrees with the ledger on the judge. */
    predicate JudgeValidated(x: Stages, db: Ledger) {
      HttpPrimary.Validates(x.worker, Judge, observation, HttpPrimary.Snapshot(db, x.leases, x.facts))
    }

    lemma AdmittedMeans(x: Stages, db: Ledger)
      ensures Admitted(x, planner, observation, db) <==>
        && PlannerValidated(x, db) && JudgeValidated(x, db)
        && CaptureAdmission.Admit(x.capture, x.expected) != CaptureAdmission.Rejected
    {
      hide HttpPrimary.Validates, CaptureAdmission.Admit;
    }

    /** The ledger holds an attempt of the judge for the observation. */
    ghost predicate JudgeReserved(db: Ledger) {
      exists id :: id in db.attempts
        && db.attempts[id].reservation.observation == observation && db.attempts[id].reservation.role == Judge
    }

    /** The first thing that went wrong up to the three admissions. */
    ghost function FirstError(x: Stages, known: bool, db: Ledger): Option<string>
      reads this`planner
    {
      if x.session.Broken? then Some(x.session.errorClass)
      else if !x.supervisorCaptured then Some("SUPERVISOR_CAPTURE_CUSTODY_UNACKNOWLEDGED")
      else if !(x.governanceAvailable && x.dispatchAvailable && x.backendAvailable && x.workerCaptured) then
        Some("PRIMARY_EVIDENCE_UNAVAILABLE")
      else if !known then Some("COORDINATOR_SNAPSHOT_UNKNOWN")
      else if !(PlannerValidated(x, db) && JudgeValidated(x, db)
                && CaptureAdmission.Admit(x.capture, x.expected) != CaptureAdmission.Rejected) then
        Some("PRIMARY_CAPTURE_INCOMPLETE")
      else None
    }

    /** Exactly the captures that were missing, unknown, uncorrelated or not admitted are reported. */
    ghost predicate ErrorsTold(errors: seq<CaptureError>, x: Stages, db: Ledger)
      reads this`planner
    {
      && (GovernanceUnavailable in errors <==> !x.governanceAvailable)
      && (DispatchUnavailable in errors <==> !x.dispatchAvailable)
      && (BackendUnavailable in errors <==> !x.backendAvailable)
      && (WorkerHttpUnavailable in errors <==> !x.workerCaptured)
      && (SupervisorHttpUncorrelated in errors <==>
            SnapshotUnknown in errors || !x.supervisorCaptured || !PlannerValidated(x, db))
      && (WorkerHttpUncorrelated in errors <==>
            SnapshotUnknown in errors || !x.workerCaptured || !JudgeValidated(x, db))
      && (BackendIncompleteOrMismatched in errors <==>
            CaptureAdmission.Admit(x.capture, x.expected) == CaptureAdmission.Rejected)
    }

    lemma CorrelatesMeans(x: Stages, db: Ledger)
      ensures SupervisorCorrelates(x, planner, observation, db) <==> PlannerValidated(x, db)
      ensures WorkerCorrelates(x, observation, db) <==> JudgeValidated(x, db)
      ensures BackendAdmitted(x) <==> CaptureAdmission.Admit(x.capture, x.expected) != CaptureAdmission.Rejected
    {
      hide HttpPrimary.Validates, CaptureAdmission.Admit;
    }

    /** What a report says of the stages and of the ledger at the snapshot: an error exactly with a root stop, a root
        stop exactly when something was missing or wrong, a close attempted exactly when nothing was. */
    ghost predicate Told(ending: Ending, x: Stages, atSnapshot: Ledger)
      reads this`planner
    {
      ending.Reported? ==>
        var s := ending.summary;
        && ending.persisted == x.summaryWritten
        && s.error == (if x.summaryWritten then FirstError(x, SnapshotUnknown !in s.captureErrors, atSnapshot)
                       else Some("FINAL_SUMMARY_CUSTODY_UNKNOWN"))
        && (s.error.Some? <==> s.rootStopAttempted)
        && (s.projectionVerified <==> x.summaryWritten && s.captureErrors == [])
        && ErrorsTold(s.captureErrors, x, atSnapshot)
        && (ending.close != NotAttempted <==>
              && ending.persisted && !s.rootStopAttempted && !atSnapshot.stopped
              && x.session.Finished? && x.session.result.completed && x.session.result.envelope
              && !x.session.result.verificationFailed && x.mcpCustodyClean && planner.acceptance.Some?
              && (JudgeReserved(atSnapshot) ==> exists e :: e in x.worker.captured.events && e.RoleAccepted?)
              && (forall e | e in planner.events + x.worker.captured.events :: !e.StopEvent?))
    }

    /** The close decision of a clean session, said of the ledger and the events. */
    lemma CleanMeans(x: Stages, db: Ledger)
      ensures Clean(x, planner, observation, db) <==>
        && x.session.Finished? && x.session.result.completed && x.session.result.envelope
        && !x.session.result.verificationFailed && x.mcpCustodyClean && planner.acceptance.Some?
        && (JudgeReserved(db) ==> exists e :: e in x.worker.captured.events && e.RoleAccepted?)
        && (forall e | e in planner.events + x.worker.captured.events :: !e.StopEvent?)
    {
      var judges, worker := HttpPrimary.Current(db, observation, Judge), x.worker.captured.events;
      assert JudgeReserved(db) <==> judges != {} by {
        if judges != {} {
          var id :| id in judges;
          assert id in db.attempts && db.attempts[id].reservation.observation == observation;
        }
        if id :| id in db.attempts && db.attempts[id].reservation.observation == observation
                 && db.attempts[id].reservation.role == Judge {
          assert id in judges;
        }
      }
      assert (forall e | e in planner.events + worker :: !e.StopEvent?)
        <==> !Stops(planner.events) && !Stops(worker) by {
        assert forall e | e in planner.events || e in worker :: e in planner.events + worker;
      }
      assert Accepts(worker) <==> exists e :: e in worker && e.RoleAccepted?;
    }

    /** A fence that is no longer open was closed by this supervisor, on a ledger with nothing pending. */
    predicate ClosedSafely(ending: Ending, atClose: Ledger, summaryDigest: Id)
      reads world, world.store
    {
      && ending.Reported? && ending.close != NotAttempted && !atClose.stopped && !AnyPending(atClose)
      && observation in world.store.db.fences && world.store.db.fences[observation].summary == Some(summaryDigest)
    }

    /** Nobody reserved for the observation in the last turn. */
    ghost predicate Undisturbed()
      reads world
    {
      world.turns > 0 && forall e | e in world.others(world.turns - 1) :: !ReservesFor(e, observation)
    }

    /** The evidence behind an attempted close: the planner's attempt was the only one of its role and had ended with
        its response, no role was used twice and nothing was retried, and all of it still held at the close unless
        somebody reserved in between. */
    ghost predicate Backed(x: Stages, atSnapshot: Ledger, atClose: Ledger)
      reads this`planner, this`exchange, world
    {
      && PlannerStands(atClose) && HttpPrimary.Current(atSnapshot, observation, Planner) == {exchange.value.attemptId}
      && UsedOnce(observation, atSnapshot)
      && (Undisturbed() ==> Admitted(x, planner, observation, atClose) && UsedOnce(observation, atClose))
    }

    /** What the snapshot admitted the close still meets, unless somebody reserved in between. */
    lemma AdmittedAtClose(x: Stages)
      requires world.Valid() && Admitted(x, planner, observation, world.store.db)
      ensures (forall e | e in world.others(world.turns) :: !ReservesFor(e, observation)) ==>
        Admitted(x, planner, observation, world.Met().db)
    {
      hide Inv, Evolves, Admitted;
      var s, es := System(world.store.db, world.caps), world.others(world.turns);
      if forall e | e in es :: !ReservesFor(e, observation) {
        RunKeepsReservations(s, es, observation);
        AdmittedStands(x, planner, observation, world.store.db, Run(s, es).db);
      }
    }

    lemma EvidenceStands(x: Stages, atSnapshot: Ledger, atClose: Ledger)
      requires Inv(atSnapshot) && Inv(atClose) && PlannerStands(atSnapshot) && PlannerStands(atClose)
      requires Admitted(x, planner, observation, atSnapshot)
      requires Undisturbed() ==> Admitted(x, planner, observation, atClose)
      ensures Backed(x, atSnapshot, atClose)
    {
      hide Inv, Admitted, UsedOnce, PlannerDelivered;
      AdmittedOnce(x, planner, observation, atSnapshot);
      DeliveredAlone(atSnapshot, observation, exchange.value);
      if Undisturbed() { AdmittedOnce(x, planner, observation, atClose); }
    }

    /** Every stage after the session succeeds, on this ledger. */
    ghost predicate Smooth(x: Stages, db: Ledger) {
      && !Escapes(x) && Captured(x) && x.summaryWritten
      && x.session.Finished? && x.session.result.completed && x.session.result.envelope
      && !x.session.result.verificationFailed && x.mcpCustodyClean
      && (HttpPrimary.Current(db, observation, Judge) != {} ==> Accepts(x.worker.captured.events))
      && !Stops(x.worker.captured.events)
      && Admitted(x, PlannerView(None, []), observation, db) && !db.stopped && !AnyPending(db)
    }

    /** Where the planner has an attempt, its capture is correlated whatever its events are. */
    lemma SmoothIsClean(x: Stages, db: Ledger)
      requires Smooth(x, db) && HttpPrimary.Current(db, observation, Planner) != {}
      requires planner.acceptance.Some? && !Stops(planner.events)
      ensures Admitted(x, planner, observation, db) && Clean(x, planner, observation, db)
    {
      HttpPrimary.EventsOnlyOfTheSilent(x.supervisor, Planner, observation, HttpPrimary.Snapshot(db, x.leases, x.facts),
                                        [], planner.events);
    }

    /** Everything after the fence was opened. */
    method Supervise(x: Stages, summaryDigest: Id)
      returns (ending: Ending, ghost atSnapshot: Ledger, ghost atClose: Ledger)
      requires Running() && Fresh() && !x.setupFails && Private(x.proposals, world)
      modifies this, budget`active
      modifies world`caps, world`turns, world`ticks, world`latest, world`mark, world`guarded, world.store
      ensures Base() && Told(ending, x, atSnapshot)
      ensures if Escapes(x) then ending == Escaped else ending.Reported?
      ensures !IsOpen(world.store.db.fences, observation) ==> ClosedSafely(ending, atClose, summaryDigest)
      ensures ending.Reported? && ending.close == FenceClose.Acknowledged ==>
        !IsOpen(world.store.db.fences, observation)
      ensures ending.Reported? && ending.close != NotAttempted ==>
        Decided(ending, atClose) && Backed(x, atSnapshot, atClose)
      ensures world.Calm(old(world.turns), 8) && old(Promising(x.proposals))
              && Smooth(x, AnsweredLedger(old(world.store.db), old(budget.active), Asked(x.proposals[0]))) ==>
        ending.Reported? && ending.close == FenceClose.Acknowledged
    {
      hide Inv, Evolves, SysInv, Admitted, Clean, CloseTxn, AnyPending, Told, ClosedSafely, Running;
      hide Decided, Backed, Private, World.Calm, Smooth, AnsweredLedger, PlannerDelivered, Admissible;
      hide World.Valid, StreamErrors;
      atSnapshot, atClose := world.store.db, world.store.db;
      ghost var good := world.Calm(world.turns, 8) && Promising(x.proposals)
        && Smooth(x, AnsweredLedger(world.store.db, budget.active, Asked(x.proposals[0])));
      if good {
        world.CalmWithin(world.turns, 8, 0, 6);
        world.CalmWithin(world.turns, 8, 6, 2);
        SmoothStages(x, AnsweredLedger(world.store.db, budget.active, Asked(x.proposals[0])));
      }
      ghost var used;
      var cancelled;
      cancelled, used := RunSession(x);
      if cancelled || x.serverExitFails || x.readersRaise {
        StillOpen();
        return Escaped, atSnapshot, atClose;
      }
      if good { ServedIsClean(x, old(world.store.db)); }
      ending, atSnapshot, atClose := Report(x, summaryDigest);
    }

    /** From the captures to the close. */
    method Report(x: Stages, summaryDigest: Id)
      returns (ending: Ending, ghost atSnapshot: Ledger, ghost atClose: Ledger)
      requires Running() && captureErrors == [] && error == SessionError(x)
      requires rootStopAttempted <==> x.session.Broken? || !x.supervisorCaptured
      modifies this`captureErrors, this`error, this`rootStopAttempted, this`rootStopAcknowledged, budget`active
      modifies world`caps, world`turns, world.store
      ensures Base() && Told(ending, x, atSnapshot)
      ensures if x.admissionRaises then ending == Escaped else ending.Reported?
      ensures !IsOpen(world.store.db.fences, observation) ==> ClosedSafely(ending, atClose, summaryDigest)
      ensures ending.Reported? && ending.close == FenceClose.Acknowledged ==>
        !IsOpen(world.store.db.fences, observation)
      ensures ending.Reported? && ending.close != NotAttempted ==>
        Decided(ending, atClose) && Backed(x, atSnapshot, atClose)
      ensures world.Calm(old(world.turns), 2) && !x.admissionRaises && x.summaryWritten
              && !old(rootStopAttempted) && !old(world.store.db).stopped
              && !AnyPending(old(world.store.db)) && Captured(x)
              && Admitted(x, planner, observation, old(world.store.db))
              && Clean(x, planner, observation, old(world.store.db)) ==>
        ending.Reported? && ending.close == FenceClose.Acknowledged
    {
      hide Inv, Evolves, SysInv, Admitted, Clean, CloseTxn, AnyPending, Told, ClosedSafely, Running;
      hide Decided, Backed, World.Calm, PlannerDelivered, World.Valid, StreamErrors;
      ReadCaptures(x);
      ending, atSnapshot, atClose := Conclude(x, summaryDigest);
    }

    lemma SmoothStages(x: Stages, db: Ledger)
      requires Smooth(x, db)
      ensures !Escapes(x) && Captured(x) && x.session.Finished? && x.summaryWritten && !db.stopped && !AnyPending(db)
    {
    }

    lemma ServedIsClean(x: Stages, before: Ledger)
      requires |x.proposals| == 1 && |x.proposals[0].calls| == 1
      requires Admissible(before, budget.active, Asked(x.proposals[0])) && Served(before, x.proposals[0])
      requires Smooth(x, AnsweredLedger(before, budget.active, Asked(x.proposals[0])))
      ensures Admitted(x, planner, observation, world.store.db) && Clean(x, planner, observation, world.store.db)
    {
      hide Smooth, Admissible;
      assert Asked(x.proposals[0]).attemptId in HttpPrimary.Current(world.store.db, observation, Planner);
      SmoothIsClean(x, world.store.db);
    }

    lemma StillOpen()
      requires Running()
      ensures Base() && IsOpen(world.store.db.fences, observation)
      ensures forall x, db :: Told(Escaped, x, db)
    {
    }

    /** From the snapshot to the close. */
    method Conclude(x: Stages, summaryDigest: Id)
      returns (ending: Ending, ghost atSnapshot: Ledger, ghost atClose: Ledger)
      requires Running() && SnapshotUnknown !in captureErrors
      requires captureErrors == [] <==>
        x.governanceAvailable && x.dispatchAvailable && x.backendAvailable && x.workerCaptured
      requires SupervisorHttpUncorrelated !in captureErrors && WorkerHttpUncorrelated !in captureErrors
      requires BackendIncompleteOrMismatched !in captureErrors && StreamErrors(x)
      requires error == if SessionError(x).Some? || captureErrors == [] then SessionError(x)
                        else Some("PRIMARY_EVIDENCE_UNAVAILABLE")
      requires rootStopAttempted <==> x.session.Broken? || !Captured(x)
      modifies this`captureErrors, this`error, this`rootStopAttempted, this`rootStopAcknowledged, budget`active
      modifies world`caps, world`turns, world.store
      ensures Base() && Told(ending, x, atSnapshot)
      ensures if x.admissionRaises then ending == Escaped else ending.Reported?
      ensures !IsOpen(world.store.db.fences, observation) ==> ClosedSafely(ending, atClose, summaryDigest)
      ensures ending.Reported? && ending.close == FenceClose.Acknowledged ==>
        !IsOpen(world.store.db.fences, observation)
      ensures ending.Reported? && ending.close != NotAttempted ==>
        Decided(ending, atClose) && Backed(x, atSnapshot, atClose)
      ensures world.Calm(old(world.turns), 2) && !x.admissionRaises && x.summaryWritten
              && !old(rootStopAttempted) && old(captureErrors) == [] && !old(world.store.db).stopped
              && !AnyPending(old(world.store.db)) && Captured(x)
              && Admitted(x, planner, observation, old(world.store.db))
              && Clean(x, planner, observation, old(world.store.db)) ==>
        ending.Reported? && ending.close == FenceClose.Acknowledged
    {
      hide Inv, Evolves, SysInv, Admitted, CloseTxn, AnyPending, Backed, ClosedSafely, PlannerDelivered;
      hide World.Valid, Clean, Stops, Accepts, HttpPrimary.Current, StreamErrors, AdmissionErrors, Told;
      hide SessionError;
      var state;
      ghost var calm := world.Calm(world.turns, 2);
      if calm { world.CalmMeets(2); }
      state, atSnapshot := AdmitCaptures(x);
      atClose := atSnapshot;
      if x.admissionRaises {
        StillOpen();
        return Escaped, atSnapshot, atClose;
      }
      if !rootStopAttempted {
        AdmittedAtClose(x);
        if calm { world.CalmMeets(1); }
      }
      ghost var known := SnapshotUnknown !in captureErrors;
      ending, atClose := Finalise(x, state, summaryDigest);
      TellAll(ending, x, atSnapshot, known);
      if ending.close != NotAttempted {
        CleanMeans(x, atSnapshot);
        EvidenceStands(x, atSnapshot, atClose);
      }
    }

    /** The pieces of a report, put together. */
    lemma TellAll(ending: Ending, x: Stages, db: Ledger, known: bool)
      requires ending.Reported? && ending.persisted == x.summaryWritten
      requires known <==> SnapshotUnknown !in captureErrors
      requires StreamErrors(x) && AdmissionErrors(x, known, db)
      requires captureErrors == [] <==>
        && x.governanceAvailable && x.dispatchAvailable && x.backendAvailable && x.workerCaptured
        && known && x.supervisorCaptured && Admitted(x, planner, observation, db)
      requires error == if SessionError(x).Some? then SessionError(x)
                        else if !(x.governanceAvailable && x.dispatchAvailable
                                  && x.backendAvailable && x.workerCaptured)
                        then Some("PRIMARY_EVIDENCE_UNAVAILABLE")
                        else if captureErrors == [] then None
                        else if !known then Some("COORDINATOR_SNAPSHOT_UNKNOWN")
                        else Some("PRIMARY_CAPTURE_INCOMPLETE")
      requires ending.summary ==
        if x.summaryWritten then Summary(error, error.Some?, captureErrors == [], captureErrors)
        else Summary(Some("FINAL_SUMMARY_CUSTODY_UNKNOWN"), true, false, captureErrors)
      requires ending.close != NotAttempted <==>
        x.summaryWritten && error.None? && Clean(x, planner, observation, db) && !db.stopped
      ensures Told(ending, x, db)
    {
      CleanMeans(x, db);
      AdmittedMeans(x, db);
      CorrelatesMeans(x, db);
      hide Clean, Stops, Accepts, Admitted, PlannerValidated, JudgeValidated, CaptureAdmission.Admit;
      hide SupervisorCorrelates, WorkerCorrelates, BackendAdmitted, JudgeReserved;
    }

    /** One whole observation. Unless an exception escapes, the summary records an error exactly when a root stop was
        attempted; the close is attempted exactly when every stage succeeded on an unstopped ledger, and then the
        planner's one attempt had ended with its response and the close was acknowledged exactly when its commit was,
        with nothing pending and no stop; every other ending leaves the fence OPEN. */
    method RunObservation(fenceId: Id, summaryDigest: Id, x: Stages)
      returns (ending: Ending, ghost atSnapshot: Ledger, ghost atClose: Ledger)
      requires Base() && Fresh() && budget.active.None? && Private(x.proposals, world)
      modifies this, budget`active
      modifies world`caps, world`turns, world`ticks, world`latest, world`mark, world`guarded, world.store
      ensures Base() && Told(ending, x, atSnapshot)
      ensures ending != NotAdmitted ==> if Escapes(x) then ending == Escaped else ending.Reported?
      ensures ending != NotAdmitted && !IsOpen(world.store.db.fences, observation) ==>
        ClosedSafely(ending, atClose, summaryDigest)
      ensures ending.Reported? && ending.close == FenceClose.Acknowledged ==>
        !IsOpen(world.store.db.fences, observation)
      ensures ending.Reported? && ending.close != NotAttempted ==>
        Decided(ending, atClose) && Backed(x, atSnapshot, atClose)
      ensures world.Calm(old(world.turns), 2) && Openable(old(world.store.db), observation, fenceId) ==>
        ending != NotAdmitted
      ensures world.Calm(old(world.turns), 10) && old(Succeeds(fenceId, x)) ==>
        ending.Reported? && ending.close == FenceClose.Acknowledged
    {
      hide Inv, Evolves, SysInv, Admitted, Clean, BeginTxn, CloseTxn, EnsureRecoverableTxn, Running, Captured;
      hide Told, ClosedSafely, Base, Decided, Backed, Private, World.Calm, Openable, Smooth, Promising;
      hide Unused, ServedLedger, OpenedLedger, WellBehaved, World.Valid, AnsweredLedger, Admissible;
      atSnapshot, atClose := world.store.db, world.store.db;
      NothingTold(x);
      ghost var good := world.Calm(world.turns, 10) && Succeeds(fenceId, x);
      if good {
        world.CalmWithin(world.turns, 10, 0, 2);
        world.CalmWithin(world.turns, 10, 2, 8);
        SuccessOpens(fenceId, x);
      }
      var opening := Open(fenceId);
      if !opening {
        return NotAdmitted, atSnapshot, atClose;
      }
      if x.setupFails {
        StillOpen();
        return Escaped, atSnapshot, atClose;
      }
      if good { SuccessPromises(old(world.store.db), fenceId, x); }
      ending, atSnapshot, atClose := Supervise(x, summaryDigest);
    }

    /** Everything that a successful observation needs: a ledger that lets it open and has no attempt of it, a planner
        provider that behaves well and in time, and smooth stages on the ledger its one attempt leaves behind. */
    ghost predicate Succeeds(fenceId: Id, x: Stages)
      reads world, world.store
    {
      && Openable(world.store.db, observation, fenceId)
      && |x.proposals| == 1 && WellBehaved(x.proposals[0], model)
      && world.clock(world.ticks + 18) < world.clock(world.ticks) + deadlines.attempt
      && Unused(world.store.db, observation, Asked(x.proposals[0]))
      && Smooth(x, ServedLedger(world.store.db, observation, fenceId, Asked(x.proposals[0])))
    }

    lemma SuccessOpens(fenceId: Id, x: Stages)
      requires Base() && Succeeds(fenceId, x)
      ensures Openable(world.store.db, observation, fenceId) && !x.setupFails && Inv(world.store.db)
    {
    }

    lemma SuccessPromises(before: Ledger, fenceId: Id, x: Stages)
      requires Inv(before) && Openable(before, observation, fenceId)
      requires |x.proposals| == 1 && WellBehaved(x.proposals[0], model)
      requires world.clock(world.ticks + 18) < world.clock(world.ticks) + deadlines.attempt
      requires Unused(before, observation, Asked(x.proposals[0]))
      requires Smooth(x, ServedLedger(before, observation, fenceId, Asked(x.proposals[0])))
      requires budget.active == Some(Capability(observation, fenceId))
      requires world.store.db == OpenedLedger(before, observation, fenceId)
      ensures Promising(x.proposals)
      ensures Smooth(x, AnsweredLedger(world.store.db, budget.active, Asked(x.proposals[0])))
    {
      hide Inv, Openable, Smooth, Unused, Admissible;
      OpenedServes(before, observation, fenceId, Asked(x.proposals[0]));
    }

    lemma NothingTold(x: Stages)
      ensures forall db :: Told(NotAdmitted, x, db)
    {
    }

    /** ensure_recoverable and begin_observation. */
    method Open(fenceId: Id) returns (ok: bool)
      requires Base() && Fresh() && budget.active.None?
      modifies budget`active, world`caps, world`turns, world.store
      ensures Base() && (ok ==> Running())
      ensures world.Calm(old(world.turns), 2) && Openable(old(world.store.db), observation, fenceId) ==>
        && ok && world.turns == old(world.turns) + 2 && budget.active == Some(Capability(observation, fenceId))
        && world.store.db == OpenedLedger(old(world.store.db), observation, fenceId)
    {
      hide Inv, Evolves, SysInv, BeginTxn, EnsureRecoverableTxn, AnyOpen, AnyPending, Openable, OpenedLedger;
      ghost var calm := world.Calm(world.turns, 2);
      if calm {
        if Openable(world.store.db, observation, fenceId) { OpenableOpens(world.store.db, observation, fenceId); }
      }
      var reply := world.EnsureRecoverable(budget);
      ok := reply.Ok?;
      if ok {
        if calm { world.CalmMeets(1); }
        reply := world.Begin(budget, observation, fenceId);
        ok := reply.Ok?;
      }
    }
  }
}
