/** BudgetedTransport: one reserved attempt against two absolute deadlines, run
    over the shared ledger with arbitrary interference, lost acknowledgements and
    clock samples.  Response custody precedes the acceptance of a role. */
module BoundedProvider {
  import opened Options
  import opened Ledger
  import opened LedgerInvariant
  import opened LedgerRuns
  import opened AttemptBudgetController
  import opened EvaluationWorld

  const MAX_BODY := 200_000

  datatype DeadlinePlan = DeadlinePlan(attempt: real, role: real, mcp: real, observation: real) {
    predicate Valid() { 0.0 < attempt < role < mcp < observation }
  }

  // ---- The attempt deadline over several requests ----

  predicate InOrder(times: seq<real>) { forall i, j | 0 <= i < j < |times| :: times[i] <= times[j] }

  /** The attempt deadline in force once requests came in at these times. */
  function AttemptEnd(plan: DeadlinePlan, requests: seq<real>): real
    requires requests != []
  {
    requests[|requests| - 1] + plan.attempt
  }

  const MODEL_MISMATCH := "RETURNED_MODEL_IDENTITY_MISMATCH_OR_MISSING"

  /** An exception as the transport tells them apart. */
  datatype Failure =
    | Bounded(code: string)
    | EvaluationTimeout          // TimeoutError of the transport's own, expired timeout context
    | ForeignTimeout             // any other TimeoutError
    | ProviderTimeout            // a timeout of the HTTP client
    | Cancelled
    | OtherFailure

  datatype Read = ReadFails(cause: Failure) | Body(size: nat, returned: Option<Id>)

  /** What the delegate does with one request. */
  datatype Delivery = NoResponse(cause: Failure) | Response(status: int, read: Read)

  /** One HTTP request as presented to the transport; payload is None when it is not JSON. */
  datatype Exchange = Exchange(
    endpointMatches: bool, payload: Option<Id>, model: Id, request: Id, prompt: Id, delivery: Delivery)

  /** A response that can be taken: complete, successful, small enough, and of the pinned model. */
  predicate GoodDelivery(d: Delivery, model: Id) {
    && d.Response? && 200 <= d.status < 300
    && d.read.Body? && d.read.size <= 200_000 && d.read.returned == Some(model)
  }

  datatype Result = Returned | Raised(failure: Failure)

  datatype Scope = AttemptAndRole | AttemptScope | RoleScope

  datatype TransportEvent =
    | StopEvent(reason: string, persisted: bool)
    | DeadlineRejected(stage: string, observed: real)
    | CustodyAck(outcome: Outcome)
    | CustodyUnacknowledged
    | RoleAccepted(at: real)

  function RoleFailed(role: Role): string {
    if role == Planner then "PLANNER_ROLE_FAILED_OR_CANCELLED" else "JUDGE_ROLE_FAILED_OR_CANCELLED"
  }

  predicate Mismatch(f: Failure) { f == Bounded(MODEL_MISMATCH) }

  lemma LateIsNoMismatch(stage: string)
    ensures !Mismatch(Bounded(stage + "_AFTER_DEADLINE"))
  {
    var late := stage + "_AFTER_DEADLINE";
    assert late[|late| - 1] == 'E' && MODEL_MISMATCH[|MODEL_MISMATCH| - 1] == 'G';
  }

  /** The ledger at the admission check and at the entry into the delegate. */
  datatype Delegation = Delegation(r: Reservation, checked: Ledger, entry: Ledger)

  /** The local flags of one handle_async_request call. */
  datatype Progress = Progress(
    reserved: bool, startAttempted: bool, delegateEntered: bool, finishAttempted: bool, terminalAck: bool)

  predicate JustReserved(db: Ledger, r: Reservation) {
    r.attemptId in db.attempts && db.attempts[r.attemptId] == Attempt(r, Reserved, None)
  }

  predicate Delivered(db: Ledger, r: Reservation) {
    r.attemptId in db.attempts && db.attempts[r.attemptId] == Attempt(r, Terminal, Some(ResponseObserved))
  }

  /** The stop, if any, was attempted at or after position n of the event list. */
  predicate StopAttempted(events: seq<TransportEvent>, n: nat) {
    exists i | n <= i < |events| :: events[i].StopEvent?
  }

  predicate Unacknowledged(events: seq<TransportEvent>, n: nat) {
    exists i | n <= i < |events| :: events[i] == CustodyUnacknowledged
  }

  lemma MoreEvents(es: seq<TransportEvent>, es': seq<TransportEvent>, n: nat)
    requires es <= es' && n <= |es|
    ensures Unacknowledged(es, n) ==> Unacknowledged(es', n)
    ensures StopAttempted(es, n) ==> StopAttempted(es', n)
    ensures StopAttempted(es', |es|) ==> StopAttempted(es', n)
  {
    assert forall i | 0 <= i < |es| :: es'[i] == es[i];
  }

  /** The ledger grants the reservation, and its caller holds the open fence of the observation. */
  ghost predicate Admissible(db: Ledger, cap: Option<Capability>, r: Reservation) {
    Inv(db) && ReserveTxn(db, cap, r).Commit? && AssertActiveTxn(db, cap, r.observation).Commit?
  }

  lemma GrantedReservation(db: Ledger, cap: Option<Capability>, r: Reservation)
    requires ReserveTxn(db, cap, r).Commit?
    ensures var reserved := ReserveTxn(db, cap, r).db;
      && !db.stopped && !reserved.stopped && reserved.fences == db.fences
      && r.attemptId in reserved.attempts && reserved.attempts[r.attemptId] == Attempt(r, Reserved, None)
  {
  }

  /** In a ledger left alone, an admissible reservation can be started, checked and finished with its response. */
  lemma AdmissibleChain(db: Ledger, cap: Option<Capability>, r: Reservation)
    requires Admissible(db, cap, r)
    ensures var reserved := ReserveTxn(db, cap, r).db;
      && StartTxn(reserved, cap, r).Commit?
      && var started := StartTxn(reserved, cap, r).db;
      && AssertActiveTxn(started, cap, r.observation).Commit?
      && FinishTxn(started, r, ResponseObserved).Commit?
      && !FinishTxn(started, r, ResponseObserved).db.stopped
  {
    GrantedReservation(db, cap, r);
    var reserved := ReserveTxn(db, cap, r).db;
    assert FenceError(reserved, cap, r.observation) == FenceError(db, cap, r.observation) == None;
    hide ReserveTxn, Inv;
  }

  /** The ledger with the attempt in flight. */
  ghost function InFlightLedger(db: Ledger, cap: Option<Capability>, r: Reservation): (db': Ledger)
    requires Admissible(db, cap, r)
    ensures AssertActiveTxn(db', cap, r.observation).Commit? && FinishTxn(db', r, ResponseObserved).Commit?
    ensures !FinishTxn(db', r, ResponseObserved).db.stopped
  {
    AdmissibleChain(db, cap, r);
    StartTxn(ReserveTxn(db, cap, r).db, cap, r).db
  }

  /** The ledger once the attempt ended with its response. */
  ghost function AnsweredLedger(db: Ledger, cap: Option<Capability>, r: Reservation): (db': Ledger)
    requires Admissible(db, cap, r)
    ensures !db'.stopped && Delivered(db', r)
  {
    AnsweredRow(db, cap, r);
    FinishTxn(InFlightLedger(db, cap, r), r, ResponseObserved).db
  }

  lemma AnsweredRow(db: Ledger, cap: Option<Capability>, r: Reservation)
    requires Admissible(db, cap, r)
    ensures Delivered(FinishTxn(InFlightLedger(db, cap, r), r, ResponseObserved).db, r)
  {
    hide Inv, ReserveTxn, AssertActiveTxn, StartTxn;
  }

  class BudgetedTransport {
    const budget: AttemptBudget
    const world: World
    const observation: Id
    const role: Role
    const requestedModel: Id
    const deadlines: DeadlinePlan
    const pinned: Id
    var delegate: Id
    var armed: Option<Id>
    var schema: Option<Id>
    var entered: bool
    var stopped: bool
    var shutdown: bool
    var responseObserved: bool
    var attemptDeadline: Option<real>
    var roleDeadline: Option<real>
    var events: seq<TransportEvent>
    var acceptance: Option<real>
    ghost var delegations: seq<Delegation>
    ghost var custody: Option<Reservation>
    ghost var requests: seq<real>             // when each request came in
    ghost var accepted: Option<Ledger>

    /** The objects this transport works on are consistent. */
    ghost predicate Base()
      reads this, budget, world, world.store
    {
      budget.store == world.store && budget.Valid() && world.Valid() && deadlines.Valid() && Timed()
    }

    /** The attempt deadline is the one the last request set. */
    ghost predicate Timed()
      reads this, world
    {
      && InOrder(requests)
      && (attemptDeadline.Some? <==> requests != [])
      && (requests != [] ==>
            attemptDeadline.value == AttemptEnd(deadlines, requests) && requests[|requests| - 1] <= world.latest)
    }

    ghost predicate GoodDelegation(d: Delegation) {
      && d.r.observation == observation && d.r.role == role && d.r.retry == 0
      && InFlightAs(d.checked, d.r) && InFlightAs(d.entry, d.r)
      && !d.checked.stopped && IsOpen(d.checked.fences, observation)
    }

    /** What a published acceptance means, at any later moment. */
    ghost predicate AcceptanceSound()
      reads this, world, world.store
    {
      acceptance.Some? ==>
        && !stopped && responseObserved
        && custody.Some? && Delivered(world.store.db, custody.value)
        && accepted.Some? && !accepted.value.stopped && Delivered(accepted.value, custody.value)
        && attemptDeadline.Some? && roleDeadline.Some?
        && acceptance.value < attemptDeadline.value && acceptance.value < roleDeadline.value
        && acceptance.value <= world.latest
    }

    ghost predicate Valid()
      reads this, budget, world, world.store
    {
      && Base()
      && AcceptanceSound()
      && (armed.Some? <==> schema.Some?)
      && (responseObserved ==> entered)
      && (entered ==> attemptDeadline.Some? && roleDeadline.Some?)
      && (responseObserved && !stopped ==> custody.Some? && Delivered(world.store.db, custody.value))
      && (custody.Some? ==> (entered || stopped) && world.Excludes(custody.value.attemptId))
      && |delegations| <= 1 && (delegations != [] ==> entered && custody == Some(delegations[0].r))
      && (responseObserved ==> delegations != [])
      && (forall d | d in delegations :: GoodDelegation(d))
    }

    /** After an acknowledged begin_observation, see OpenTransport. */
    constructor (budget: AttemptBudget, world: World, observation: Id, role: Role, requestedModel: Id,
                 deadlines: DeadlinePlan, delegate: Id)
      requires budget.store == world.store && budget.Valid() && world.Valid() && deadlines.Valid()
      ensures Valid() && acceptance == None && delegations == [] && !stopped && !entered && requests == []
      ensures this.budget == budget && this.world == world && this.observation == observation && this.role == role
      ensures this.requestedModel == requestedModel && this.deadlines == deadlines
      ensures Intact() && armed == None && schema == None && roleDeadline == None && events == []
    {
      this.budget, this.world, this.observation, this.role := budget, world, observation, role;
      this.requestedModel, this.deadlines, this.pinned, this.delegate := requestedModel, deadlines, delegate, delegate;
      armed, schema, attemptDeadline, roleDeadline, acceptance := None, None, None, None, None;
      entered, stopped, shutdown, responseObserved := false, false, false, false;
      events, delegations, custody, accepted, requests := [], [], None, None, [];
    }

    /** _stop: local stop first, acceptance revoked, then one attempt at a durable stop. */
    method StopRun(reason: string) returns (failure: Failure)
      requires Base()
      modifies this`stopped, this`acceptance, this`events, world`caps, world`turns, world.store
      ensures Base() && stopped && acceptance == None
      ensures forall id | world.Excludes(id) && id in old(world.store.db.attempts) ::
        id in world.store.db.attempts && world.store.db.attempts[id] == old(world.store.db.attempts)[id]
      ensures |events| == |old(events)| + 1 && old(events) < events && StopAttempted(events, |old(events)|)
      ensures var e := events[|old(events)|];
        && e.StopEvent? && e.reason == reason && (e.persisted ==> world.store.db.stopped)
        && failure == Bounded(if e.persisted then reason else "BUDGET_CUSTODY_UNAVAILABLE")
    {
      hide Inv, Evolves, SysInv, InOrder, AttemptEnd, World.Valid;
      stopped := true;
      acceptance := None;
      var reply := world.Stop(budget, reason);
      events := events + [StopEvent(reason, reply.Ok?)];
      assert events[|old(events)|].StopEvent?;
      failure := Bounded(if reply.Ok? then reason else "BUDGET_CUSTODY_UNAVAILABLE");
    }

    /** _stop between requests: it also leaves the transport consistent. */
    method StopKeepingValid(reason: string) returns (failure: Failure)
      requires Valid()
      modifies this`stopped, this`acceptance, this`events, world`caps, world`turns, world.store
      ensures Valid() && stopped && acceptance == None
      ensures old(events) <= events && StopAttempted(events, |old(events)|)
      ensures |events| == |old(events)| + 1 && events[|old(events)|].StopEvent?
      ensures events[|old(events)|].reason == reason
      ensures failure == Bounded(if events[|old(events)|].persisted then reason else "BUDGET_CUSTODY_UNAVAILABLE")
    {
      hide Inv, Evolves, SysInv, InOrder, AttemptEnd, World.Valid;
      failure := StopRun(reason);
    }

    function Expired(now: real): Option<Scope>
      reads this`attemptDeadline, this`roleDeadline
    {
      var attempt := attemptDeadline.Some? && now >= attemptDeadline.value;
      var role' := roleDeadline.Some? && now >= roleDeadline.value;
      if attempt && role' then Some(AttemptAndRole)
      else if attempt then Some(AttemptScope)
      else if role' then Some(RoleScope)
      else None
    }

    /** A deadline is over from its very instant on; which scopes a sample exceeds. */
    lemma ExpiredExactly(now: real)
      ensures Expired(now).None? <==>
        && (attemptDeadline.Some? ==> now < attemptDeadline.value)
        && (roleDeadline.Some? ==> now < roleDeadline.value)
      ensures Expired(now) == Some(RoleScope) <==>
        && roleDeadline.Some? && roleDeadline.value <= now
        && (attemptDeadline.Some? ==> now < attemptDeadline.value)
      ensures Expired(now) == Some(AttemptScope) <==>
        && attemptDeadline.Some? && attemptDeadline.value <= now
        && (roleDeadline.Some? ==> now < roleDeadline.value)
    {
    }

    /** A sample in time means that all earlier ones were. */
    lemma EarlierInTime(i: nat, j: nat)
      requires world.Valid() && i <= j && Expired(world.clock(j)).None?
      ensures Expired(world.clock(i)).None?
    {
      assert world.clock(i) <= world.clock(j);
    }

    /** _guard: one clock sample against both deadlines. */
    method Guard(stage: string) returns (now: real, failure: Option<Failure>)
      requires world.Valid()
      modifies this`events, world`ticks, world`latest
      ensures world.Valid() && old(world.latest) <= now == world.latest == world.clock(old(world.ticks))
      ensures world.ticks == old(world.ticks) + 1
      ensures failure.Some? <==> Expired(now).Some?
      ensures events == old(events) + if failure.None? then [] else [DeadlineRejected(stage, now)]
      ensures failure.Some? ==> failure == Some(Bounded(stage + "_AFTER_DEADLINE")) && !Mismatch(failure.value)
    {
      now := world.Now();
      failure := None;
      if Expired(now).Some? {
        events := events + [DeadlineRejected(stage, now)];
        failure := Some(Bounded(stage + "_AFTER_DEADLINE"));
        LateIsNoMismatch(stage);
      }
    }

    predicate Intact()
      reads this`delegate, this`shutdown
    {
      delegate == pinned && !shutdown
    }

    /** integrity: the pinned delegate is still there and nobody shut it down. */
    method Integrity() returns (failure: Option<Failure>)
      requires Valid()
      modifies this`stopped, this`acceptance, this`events, world`caps, world`turns, world.store
      ensures Valid()
      ensures failure.Some? ==>
        stopped && acceptance == None && old(events) <= events && StopAttempted(events, |old(events)|)
      ensures failure.None? <==> old(Intact())
      ensures failure.Some? ==>
        failure.value in {Bounded("TRANSPORT_IDENTITY_CHANGED"), Bounded("BUDGET_CUSTODY_UNAVAILABLE")}
      ensures requests == old(requests) && delegations == old(delegations)
      ensures failure.None? ==> unchanged(this) && unchanged(world) && unchanged(world.store)
    {
      hide Inv, Evolves, SysInv, InOrder, AttemptEnd, World.Valid;
      failure := None;
      if delegate != pinned || shutdown {
        var f := StopKeepingValid("TRANSPORT_IDENTITY_CHANGED");
        failure := Some(f);
      }
    }

    /** A guard between requests. */
    method GuardKeepingValid(stage: string) returns (failure: Option<Failure>)
      requires Valid()
      modifies this`events, world`ticks, world`latest
      ensures Valid() && old(events) <= events
      ensures failure.None? <==> Expired(world.clock(old(world.ticks))).None?
      ensures failure.None? ==> events == old(events)
      ensures world.ticks == old(world.ticks) + 1
    {
      hide Inv, Evolves, SysInv, InOrder, AttemptEnd, World.Valid, Expired;
      var now;
      now, failure := Guard(stage);
    }

    ghost method MarkNow()
      requires Valid()
      modifies world`mark
      ensures Valid() && world.mark == world.store.db
    {
      hide Inv, Evolves, SysInv, InOrder, AttemptEnd, World.Valid;
      world.Mark();
    }

    lemma GrewSinceMark()
      requires Valid()
      ensures Evolves(world.mark, world.store.db) && |delegations| <= 1
    {
    }

    lemma EarlierWhileValid(i: nat, j: nat)
      requires Valid() && i <= j && Expired(world.clock(j)).None?
      ensures Expired(world.clock(i)).None?
    {
      EarlierInTime(i, j);
    }

    method BeginRole() returns (failure: Option<Failure>)
      requires Valid()
      modifies this`roleDeadline, this`stopped, this`acceptance, this`events
      modifies world`caps, world`turns, world`ticks, world`latest, world.store
      ensures Valid() && old(events) <= events
      ensures failure.Some? <==> old(roleDeadline).Some?
      ensures failure.None? ==>
        && roleDeadline == Some(world.clock(old(world.ticks)) + deadlines.role) && world.ticks == old(world.ticks) + 1
        && events == old(events) && stopped == old(stopped) && acceptance == old(acceptance)
        && world.turns == old(world.turns) && unchanged(world.store)
      ensures failure.Some? ==> stopped && StopAttempted(events, |old(events)|)
      ensures failure.Some? ==>
        && failure.value.Bounded? && |events| == |old(events)| + 1 && events[|old(events)|].StopEvent?
        && events[|old(events)|].reason == "DUPLICATE_LOGICAL_PROVIDER_CALL"
    {
      hide Inv, Evolves, SysInv, InOrder, AttemptEnd, World.Valid;
      failure := None;
      if roleDeadline.Some? {
        var f := StopKeepingValid("DUPLICATE_LOGICAL_PROVIDER_CALL");
        return Some(f);
      }
      var now := world.Now();
      roleDeadline := Some(now + deadlines.role);
    }

    method Arm(payload: Id, schemaDigest: Id) returns (failure: Option<Failure>)
      requires Valid()
      modifies this`armed, this`schema, this`stopped, this`acceptance, this`events, world`caps, world`turns, world.store
      ensures Valid() && old(events) <= events
      ensures failure.Some? <==> old(entered) || old(armed).Some?
      ensures failure.Some? ==> stopped && StopAttempted(events, |old(events)|)
      ensures failure.None? ==>
        && events == old(events) && armed == Some(payload) && schema == Some(schemaDigest)
        && stopped == old(stopped) && acceptance == old(acceptance)
        && unchanged(world) && unchanged(world.store)
    {
      hide Inv, Evolves, SysInv, InOrder, AttemptEnd, World.Valid;
      failure := None;
      if entered || armed.Some? {
        var f := StopKeepingValid("DUPLICATE_LOGICAL_PROVIDER_CALL");
        return Some(f);
      }
      armed := Some(payload);
      schema := Some(schemaDigest);
    }

    /** Swapping the delegate or shutting down is seen by the next integrity check. */
    method Shutdown()
      modifies this`shutdown
      ensures shutdown && (old(Valid()) ==> Valid())
    {
      shutdown := true;
    }

    // ---- One attempt ----

    /** Where the attempt r stands in the ledger, as far as the local flags know. */
    ghost predicate Tracks(p: Progress, r: Reservation)
      reads this, world, world.store
    {
      && r.observation == observation && r.role == role && r.retry == 0 && world.Excludes(r.attemptId)
      && (p.startAttempted ==> p.reserved) && (p.finishAttempted ==> p.reserved)
      && (p.delegateEntered ==> p.startAttempted) && (p.terminalAck ==> p.finishAttempted)
      && (p.reserved ==>
            && custody == Some(r) && Bound(world.store.db, r)
            && (!p.finishAttempted ==> world.store.db.attempts[r.attemptId].state != Terminal)
            && (p.terminalAck ==> world.store.db.attempts[r.attemptId].state == Terminal)
            && (world.store.db.attempts[r.attemptId].outcome == Some(ReservationNoSend) ==> !p.startAttempted))
    }

    lemma EarlierWhileWorking(i: nat, j: nat)
      requires Working() && i <= j && Expired(world.clock(j)).None?
      ensures Expired(world.clock(i)).None?
    {
      EarlierInTime(i, j);
    }

    /** What an attempt in progress never disturbs. */
    ghost predicate Working()
      reads this, budget, world, world.store
    {
      && Base() && acceptance == None
      && attemptDeadline.Some? && roleDeadline.Some?
      && (forall d | d in delegations :: GoodDelegation(d))
    }

    /** If the attempt r ended at all, it ended with this outcome. */
    ghost predicate Claims(r: Reservation, o: Outcome)
      reads world, world.store
    {
      && Bound(world.store.db, r)
      && (world.store.db.attempts[r.attemptId].state == Terminal ==>
            world.store.db.attempts[r.attemptId].outcome == Some(o))
    }

    /** The delegate's answer to the request, whose samples start at tick n, is of another model: read in time,
        successful and small enough; or an exception claims so. */
    predicate Disowned(d: Delivery, n: nat)
      reads this`attemptDeadline, this`roleDeadline
    {
      match d
      case NoResponse(cause) => Mismatch(cause)
      case Response(_, ReadFails(cause)) => Mismatch(cause) && Expired(world.clock(n + 1)).None?
      case Response(status, Body(size, returned)) =>
        && 200 <= status < 300 && size <= 200_000 && returned != Some(requestedModel)
        && Expired(world.clock(n + 3)).None?
    }

    /** The outcome that an attempt has to end with, from its exchange and the samples from tick n on: no send before
        the reservation was in time, unknown without a response, observed only if the response was good and in time,
        and otherwise rejected, for its model or for anything else. */
    function DueOutcome(x: Exchange, n: nat, sent: bool): Outcome
      reads this`attemptDeadline, this`roleDeadline
    {
      if Expired(world.clock(n)).Some? then ReservationNoSend
      else if !sent then CompletionUnknown
      else if GoodDelivery(x.delivery, requestedModel) && Expired(world.clock(n + 8)).None? then ResponseObserved
      else if Disowned(x.delivery, n + 4) then ModelIdentityRejected
      else if x.delivery.Response? then ResponseRejected
      else CompletionUnknown
    }

    method FinishAttempt(p: Progress, r: Reservation, outcome: Outcome) returns (p': Progress)
      requires Working() && Tracks(p, r) && p.reserved && !p.finishAttempted
      requires outcome == ReservationNoSend ==> !p.startAttempted
      modifies this`events, world`caps, world`turns, world.store
      ensures Working() && Tracks(p', r)
      ensures p' == p.(finishAttempted := true, terminalAck := p'.terminalAck)
      ensures old(events) <= events && world.turns == old(world.turns) + 1
      ensures p'.terminalAck ==> world.store.db.attempts[r.attemptId].outcome == Some(outcome)
      ensures p'.terminalAck ==> world.Acked(old(world.turns), 1)
      ensures Claims(r, outcome)
      ensures events == old(events) + if p'.terminalAck then [CustodyAck(outcome)] else []
      ensures world.Calm(old(world.turns), 1) && FinishTxn(old(world.store.db), r, outcome).Commit? ==>
        p'.terminalAck && world.store.db == FinishTxn(old(world.store.db), r, outcome).db
    {
      hide Inv, Evolves, SysInv, InOrder, AttemptEnd, World.Valid, GoodDelegation, Safe;
      var reply := world.Finish(budget, r, outcome);
      p' := p.(finishAttempted := true);
      if reply.Ok? {
        p' := p'.(terminalAck := true);
        events := events + [CustodyAck(outcome)];
      }
    }

    /** reserve, start, and the checks in front of the delegate. */
    method Admit(r: Reservation) returns (p: Progress, failure: Option<Failure>, ghost checked: Ledger)
      requires Working() && !entered && delegations == []
      requires Tracks(Progress(false, false, false, false, false), r)
      modifies this`events, this`entered, this`custody, world`caps, world`turns, world`ticks, world`latest, world.store
      ensures Working() && Tracks(p, r)
      ensures old(events) <= events && !p.delegateEntered
      ensures if p.reserved then custody == Some(r) else failure.Some? && custody == old(custody)
      ensures failure.None? ==> events == old(events)
      ensures p.finishAttempted ==> failure.Some?
      ensures p.reserved && failure.Some? ==> NeverSent(p, failure.value, r, old(world.ticks))
      ensures failure.None? ==> Expired(world.clock(old(world.ticks))).None?
      ensures failure.None? ==>
        p == Progress(true, true, false, false, false) && entered && Checked(checked, r)
      ensures failure.None? ==> world.turns == old(world.turns) + 3 && world.ticks == old(world.ticks) + 4
      ensures failure.None? ==> world.Acked(old(world.turns), 3)
      ensures world.Calm(old(world.turns), 3) && Admissible(old(world.store.db), budget.active, r)
              && Expired(world.clock(old(world.ticks) + 3)).None? ==>
        failure.None? && world.store.db == InFlightLedger(old(world.store.db), budget.active, r)
    {
      hide Inv, Evolves, SysInv, InOrder, AttemptEnd, World.Valid, Expired;
      hide ReserveTxn, StartTxn, FinishTxn, AssertActiveTxn;
      assert r.observation == observation;
      hide Working, Tracks, Checked;
      ghost var n := world.ticks;
      if Expired(world.clock(n + 3)).None? { EarlierWhileWorking(n, n + 3); }
      if Admissible(world.store.db, budget.active, r) { AdmissibleChain(world.store.db, budget.active, r); }
      checked := world.store.db;
      p, failure := ReserveInTime(r);
      if failure.Some? {
        return;
      }
      p, failure := StartAndCheck(r);
      checked := world.store.db;
    }

    /** How an attempt stands that failed before it reached the delegate. */
    ghost predicate NeverSent(p: Progress, f: Failure, r: Reservation, n: nat)
      reads this`attemptDeadline, this`roleDeadline, world, world.store
    {
      if Expired(world.clock(n)).Some? then p.finishAttempted && Claims(r, ReservationNoSend)
      else p.startAttempted && !Mismatch(f) && (p.finishAttempted ==> Claims(r, CompletionUnknown))
    }

    method StartAndCheck(r: Reservation) returns (p: Progress, failure: Option<Failure>)
      requires Working() && Tracks(Progress(true, false, false, false, false), r)
      requires JustReserved(world.store.db, r)
      modifies this`events, this`entered, world`caps, world`turns, world`ticks, world`latest, world.store
      ensures Working() && Tracks(p, r)
      ensures old(events) <= events && p.reserved && !p.delegateEntered
      ensures failure.None? ==> events == old(events)
      ensures p.finishAttempted ==> failure.Some?
      ensures failure.Some? ==>
        p.startAttempted && !Mismatch(failure.value) && (p.finishAttempted ==> Claims(r, CompletionUnknown))
      ensures failure.None? ==>
        p == Progress(true, true, false, false, false) && entered && Checked(world.store.db, r)
      ensures failure.None? ==> world.turns == old(world.turns) + 2 && world.ticks == old(world.ticks) + 3
      ensures failure.None? ==> world.Acked(old(world.turns), 2)
      ensures world.Calm(old(world.turns), 2) && StartTxn(old(world.store.db), budget.active, r).Commit?
              && AssertActiveTxn(StartTxn(old(world.store.db), budget.active, r).db, budget.active, observation).Commit?
              && Expired(world.clock(old(world.ticks) + 2)).None? ==>
        failure.None? && world.store.db == StartTxn(old(world.store.db), budget.active, r).db
    {
      hide Inv, Evolves, SysInv, InOrder, AttemptEnd, World.Valid, Expired, StartTxn, AssertActiveTxn;
      hide Working, Tracks, Checked, JustReserved;
      ghost var n := world.ticks;
      if Expired(world.clock(n + 2)).None? { EarlierWhileWorking(n, n + 2); }
      p, failure := StartInTime(r);
      if failure.None? {
        failure := CheckInTime(r);
      }
    }

    method ReserveInTime(r: Reservation) returns (p: Progress, failure: Option<Failure>)
      requires Working() && Tracks(Progress(false, false, false, false, false), r)
      modifies this`events, this`entered, this`custody, world`caps, world`turns, world`ticks, world`latest, world.store
      ensures Working() && Tracks(p, r)
      ensures old(events) <= events && !p.startAttempted && !p.delegateEntered
      ensures if p.reserved then custody == Some(r) else failure.Some? && custody == old(custody)
      ensures failure.None? ==> events == old(events)
      ensures p.reserved && failure.Some? ==>
        && entered
        && failure == Some(if p.terminalAck then Bounded("RESERVATION_ACK" + "_AFTER_DEADLINE") else OtherFailure)
      ensures p.finishAttempted ==> failure.Some?
      ensures failure.None? ==> Expired(world.clock(old(world.ticks))).None?
      ensures p.reserved && failure.Some? ==>
        p.finishAttempted && Claims(r, ReservationNoSend) && Expired(world.clock(old(world.ticks))).Some?
      ensures failure.None? ==>
        p == Progress(true, false, false, false, false) && JustReserved(world.store.db, r)
      ensures failure.None? ==>
        && world.turns == old(world.turns) + 1 && world.ticks == old(world.ticks) + 1
        && world.Acked(old(world.turns), 1) && entered == old(entered)
      ensures world.Calm(old(world.turns), 1) && ReserveTxn(old(world.store.db), budget.active, r).Commit?
              && Expired(world.clock(old(world.ticks))).None? ==>
        failure.None? && world.store.db == ReserveTxn(old(world.store.db), budget.active, r).db
    {
      hide Inv, Evolves, SysInv, InOrder, AttemptEnd, World.Valid, Expired, ReserveTxn;
      p := Progress(false, false, false, false, false);
      var reserved := ReserveAttempt(r);
      if !reserved {
        return p, Some(OtherFailure);
      }
      p := p.(reserved := true);
      var now;
      now, failure := Guard("RESERVATION_ACK");
      if failure.Some? {
        entered := true;
        p := FinishAttempt(p, r, ReservationNoSend);
        failure := if p.terminalAck then failure else Some(OtherFailure);
      }
    }

    method StartInTime(r: Reservation) returns (p: Progress, failure: Option<Failure>)
      requires Working() && Tracks(Progress(true, false, false, false, false), r)
      requires JustReserved(world.store.db, r)
      modifies this`events, this`entered, world`caps, world`turns, world`ticks, world`latest, world.store
      ensures Working() && Tracks(p, r)
      ensures old(events) <= events && p.reserved && !p.delegateEntered
      ensures failure.None? ==> events == old(events)
      ensures failure.Some? && entered && !old(entered) ==>
        && p.finishAttempted
        && failure == Some(if p.terminalAck then Bounded("START_ACK" + "_AFTER_DEADLINE") else OtherFailure)
      ensures p.finishAttempted ==> failure.Some?
      ensures failure.Some? ==>
        p.startAttempted && !Mismatch(failure.value) && (p.finishAttempted ==> Claims(r, CompletionUnknown))
      ensures failure.None? ==>
        p == Progress(true, true, false, false, false) && entered && InFlightAs(world.store.db, r)
      ensures failure.None? ==>
        && world.turns == old(world.turns) + 1 && world.ticks == old(world.ticks) + 1
        && world.Acked(old(world.turns), 1)
      ensures world.Calm(old(world.turns), 1) && StartTxn(old(world.store.db), budget.active, r).Commit?
              && Expired(world.clock(old(world.ticks))).None? ==>
        failure.None? && world.store.db == StartTxn(old(world.store.db), budget.active, r).db
    {
      hide Inv, Evolves, SysInv, InOrder, AttemptEnd, World.Valid, Expired, StartTxn;
      p := Progress(true, true, false, false, false);
      var started := StartAttempt(r);
      if !started {
        return p, Some(OtherFailure);
      }
      entered := true;
      var now;
      now, failure := Guard("START_ACK");
      if failure.Some? {
        p := FinishAttempt(p, r, CompletionUnknown);
        failure := if p.terminalAck then failure else Some(OtherFailure);
      }
    }

    /** The admission check passed on this ledger and the attempt was in flight there. */
    ghost predicate Checked(checked: Ledger, r: Reservation)
      reads this, world, world.store
    {
      && InFlightAs(checked, r) && InFlightAs(world.store.db, r)
      && !checked.stopped && IsOpen(checked.fences, observation)
    }

    method ReserveAttempt(r: Reservation) returns (reserved: bool)
      requires Working() && Tracks(Progress(false, false, false, false, false), r)
      modifies this`custody, world`caps, world`turns, world.store
      ensures Working()
      ensures Tracks(Progress(reserved, false, false, false, false), r)
      ensures reserved ==> JustReserved(world.store.db, r)
      ensures !reserved ==> custody == old(custody)
      ensures world.turns == old(world.turns) + 1
      ensures reserved ==> world.Acked(old(world.turns), 1)
      ensures world.Calm(old(world.turns), 1) && ReserveTxn(old(world.store.db), budget.active, r).Commit? ==>
        reserved && world.store.db == ReserveTxn(old(world.store.db), budget.active, r).db
    {
      hide Inv, Evolves, SysInv, InOrder, AttemptEnd, World.Valid, ReserveTxn;
      var reply := world.Reserve(budget, r);
      reserved := reply.Ok?;
      if reserved {
        custody := Some(r);
      }
    }

    method CheckInTime(r: Reservation) returns (failure: Option<Failure>)
      requires Working() && Tracks(Progress(true, true, false, false, false), r) && InFlightAs(world.store.db, r)
      modifies this`events, world`caps, world`turns, world`ticks, world`latest, world.store
      ensures Working() && Tracks(Progress(true, true, false, false, false), r)
      ensures old(events) <= events
      ensures failure.None? ==> Checked(world.store.db, r)
      ensures failure.None? ==> events == old(events)
      ensures failure.Some? ==> !Mismatch(failure.value)
      ensures failure.None? ==>
        && world.turns == old(world.turns) + 1 && world.ticks == old(world.ticks) + 2
        && world.Acked(old(world.turns), 1)
      ensures world.Calm(old(world.turns), 1)
              && AssertActiveTxn(old(world.store.db), budget.active, observation).Commit?
              && Expired(world.clock(old(world.ticks) + 1)).None? ==>
        failure.None? && world.store.db == old(world.store.db)
    {
      hide Inv, Evolves, SysInv, InOrder, AttemptEnd, World.Valid, Expired;
      var now := world.Now();                 // _remaining, for the timeout context
      var reply := world.AssertActive(budget, observation, r);
      if reply.Err? {
        return Some(OtherFailure);
      }
      failure := GuardWorking("PRE_DELEGATE", Progress(true, true, false, false, false), r);
    }

    method StartAttempt(r: Reservation) returns (started: bool)
      requires Working() && Tracks(Progress(true, true, false, false, false), r)
      requires JustReserved(world.store.db, r)
      modifies world`caps, world`turns, world.store
      ensures Working() && Tracks(Progress(true, true, false, false, false), r)
      ensures started ==> InFlightAs(world.store.db, r)
      ensures world.turns == old(world.turns) + 1
      ensures started ==> world.Acked(old(world.turns), 1)
      ensures world.Calm(old(world.turns), 1) && StartTxn(old(world.store.db), budget.active, r).Commit? ==>
        started && world.store.db == StartTxn(old(world.store.db), budget.active, r).db
    {
      hide Inv, Evolves, SysInv, InOrder, AttemptEnd, World.Valid, StartTxn;
      var reply := world.Start(budget, r);
      started := reply.Ok?;
    }

    /** The one entry into the delegate.  Others may act between the check and the entry. */
    method EnterDelegate(r: Reservation, ghost checked: Ledger)
      requires Working() && Tracks(Progress(true, true, false, false, false), r) && Checked(checked, r)
      requires delegations == []
      modifies this`delegations, world`caps, world`turns, world.store
      ensures Working() && Tracks(Progress(true, true, true, false, false), r)
      ensures InFlightAs(world.store.db, r)
      ensures |delegations| == 1 && delegations[0].r == r
      ensures world.turns == old(world.turns) + 1
      ensures world.Calm(old(world.turns), 1) ==> world.store.db == old(world.store.db)
    {
      hide Inv, Evolves, SysInv, InOrder, AttemptEnd, World.Valid;
      var _ := world.Turn(budget);
      delegations := [Delegation(r, checked, world.store.db)];
    }

    /** The delegate's behaviour and every check on its response, up to the custody write: taken exactly when the
        response is good and the last of the samples comes before every deadline in force. */
    method Receive(x: Exchange) returns (failure: Option<Failure>)
      requires world.Valid()
      modifies this`events, this`responseObserved, world`ticks, world`latest
      ensures world.Valid() && old(world.latest) <= world.latest && old(events) <= events
      ensures failure.None? <==>
        GoodDelivery(x.delivery, requestedModel) && Expired(world.clock(old(world.ticks) + 4)).None?
      ensures failure.Some? ==> (Mismatch(failure.value) <==> Disowned(x.delivery, old(world.ticks)))
      ensures failure.None? ==> events == old(events)
      ensures responseObserved <==> old(responseObserved) || x.delivery.Response?
      ensures failure.None? ==>
        && responseObserved && Expired(world.latest).None?
        && world.ticks == old(world.ticks) + 5 && world.latest == world.clock(old(world.ticks) + 4)
    {
      hide Inv, Evolves, SysInv, InOrder, AttemptEnd, World.Valid, Expired, Mismatch, Disowned, GoodDelivery;
      ghost var n := world.ticks;
      if x.delivery.NoResponse? {
        Unanswered(x.delivery, n);
        return Some(x.delivery.cause);
      }
      responseObserved := true;
      failure := Arrival();
      if failure.Some? {
        LateArrival(x.delivery, n);
        return;
      }
      failure := Inspect(x.delivery);
      Inspected(x.delivery, n);
    }

    lemma Unanswered(d: Delivery, n: nat)
      requires d.NoResponse?
      ensures !GoodDelivery(d, requestedModel) && (Disowned(d, n) <==> Mismatch(d.cause))
    {
    }

    lemma LateArrival(d: Delivery, n: nat)
      requires world.Valid() && d.Response? && Expired(world.clock(n + 1)).Some?
      ensures Expired(world.clock(n + 4)).Some? && !Disowned(d, n)
    {
      hide World.Valid, Expired;
      if Expired(world.clock(n + 4)).None? { EarlierInTime(n + 1, n + 4); }
      if Expired(world.clock(n + 3)).None? { EarlierInTime(n + 1, n + 3); }
    }

    lemma Inspected(d: Delivery, n: nat)
      requires world.Valid() && d.Response? && Expired(world.clock(n + 1)).None?
      ensures Disowned(d, n) <==>
        match d.read
        case ReadFails(cause) => Mismatch(cause)
        case Body(size, returned) =>
          && 200 <= d.status < 300 && size <= MAX_BODY && returned != Some(requestedModel)
          && Expired(world.clock(n + 3)).None?
    {
      hide World.Valid, Expired, Mismatch;
    }

    /** The response arrives, and the first sample after it. */
    method Arrival() returns (failure: Option<Failure>)
      requires world.Valid()
      modifies this`events, world`ticks, world`latest
      ensures world.Valid() && old(world.latest) <= world.latest && old(events) <= events
      ensures failure.None? <==> Expired(world.clock(old(world.ticks) + 1)).None?
      ensures failure.None? ==> events == old(events)
      ensures failure.Some? ==> !Mismatch(failure.value)
      ensures world.ticks == old(world.ticks) + 2
    {
      hide Inv, Evolves, SysInv, InOrder, AttemptEnd, World.Valid, Expired;
      var now := world.Now();
      now, failure := Guard("PROVIDER_RESPONSE");
    }

    /** What is checked of a response in hand: its body, and then itself. */
    method Inspect(d: Delivery) returns (failure: Option<Failure>)
      requires world.Valid() && d.Response?
      modifies this`events, world`ticks, world`latest
      ensures world.Valid() && old(world.latest) <= world.latest && old(events) <= events
      ensures failure.None? <==> GoodDelivery(d, requestedModel) && Expired(world.clock(old(world.ticks) + 2)).None?
      ensures failure.Some? ==> (Mismatch(failure.value) <==>
        match d.read
        case ReadFails(cause) => Mismatch(cause)
        case Body(size, returned) =>
          && 200 <= d.status < 300 && size <= MAX_BODY && returned != Some(requestedModel)
          && Expired(world.clock(old(world.ticks) + 1)).None?)
      ensures failure.None? ==> events == old(events)
      ensures failure.None? ==>
        world.ticks == old(world.ticks) + 3 && world.latest == world.clock(old(world.ticks) + 2)
    {
      hide Inv, Evolves, SysInv, InOrder, AttemptEnd, World.Valid, Expired, Mismatch;
      ghost var n := world.ticks;
      if Expired(world.clock(n + 2)).None? { EarlierInTime(n + 1, n + 2); }
      failure := ReadResponse(d.read);
      if failure.None? {
        failure := JudgeResponse(d);
      }
    }

    /** Reading the body between two samples. */
    method ReadResponse(read: Read) returns (failure: Option<Failure>)
      requires world.Valid()
      modifies this`events, world`ticks, world`latest
      ensures world.Valid() && old(world.latest) <= world.latest && old(events) <= events
      ensures failure.None? <==> read.Body? && Expired(world.clock(old(world.ticks) + 1)).None?
      ensures failure.Some? ==> (Mismatch(failure.value) <==> read.ReadFails? && Mismatch(read.cause))
      ensures failure.None? ==> events == old(events)
      ensures |events| <= |old(events)| + 1
      ensures failure.None? ==> world.ticks == old(world.ticks) + 2
    {
      hide Inv, Evolves, SysInv, InOrder, AttemptEnd, World.Valid, Expired;
      ghost var n := world.ticks;
      if Expired(world.clock(n + 1)).None? { EarlierInTime(n, n + 1); }
      if read.ReadFails? {
        return Some(read.cause);
      }
      var now;
      now, failure := Guard("RESPONSE_READ");
      if failure.Some? {
        return;
      }
      now, failure := Guard("RESPONSE_READ");
    }

    /** Status, size and model, and then one more sample. */
    method JudgeResponse(d: Delivery) returns (failure: Option<Failure>)
      requires world.Valid() && d.Response? && d.read.Body?
      modifies this`events, world`ticks, world`latest
      ensures world.Valid() && old(world.latest) <= world.latest && old(events) <= events
      ensures failure.None? <==> GoodDelivery(d, requestedModel) && Expired(world.clock(old(world.ticks))).None?
      ensures failure.Some? ==> (Mismatch(failure.value) <==>
        200 <= d.status < 300 && d.read.size <= MAX_BODY && d.read.returned != Some(requestedModel))
      ensures failure.None? ==> events == old(events)
      ensures !(200 <= d.status < 300) ==> failure == Some(Bounded("HTTP_RESPONSE_REJECTED"))
      ensures 200 <= d.status < 300 && d.read.size > 200_000 ==> failure == Some(Bounded("PROVIDER_RESPONSE_TOO_LARGE"))
      ensures failure.None? ==> world.ticks == old(world.ticks) + 1 && world.latest == world.clock(old(world.ticks))
    {
      hide Inv, Evolves, SysInv, InOrder, AttemptEnd, World.Valid, Expired;
      if !(200 <= d.status < 300) {
        return Some(Bounded("HTTP_RESPONSE_REJECTED"));
      }
      if d.read.size > MAX_BODY {
        return Some(Bounded("PROVIDER_RESPONSE_TOO_LARGE"));
      }
      if d.read.returned != Some(requestedModel) {
        return Some(Bounded(MODEL_MISMATCH));
      }
      var now;
      now, failure := Guard("LOCAL_RESPONSE_PROCESSING");
    }

    /** The durable observation of the response, and the last two guards. */
    method Conclude(r: Reservation) returns (p: Progress, failure: Option<Failure>)
      requires Working() && Tracks(Progress(true, true, true, false, false), r)
      modifies this`events, world`caps, world`turns, world`ticks, world`latest, world.store
      ensures Working() && Tracks(p, r)
      ensures old(events) <= events && p.reserved && p.delegateEntered && p.finishAttempted
      ensures failure.None? ==> events == old(events) + [CustodyAck(ResponseObserved)]
      ensures Claims(r, ResponseObserved)
      ensures failure.None? ==> p.terminalAck && Delivered(world.store.db, r)
      ensures failure.None? ==>
        && world.turns == old(world.turns) + 1 && world.ticks == old(world.ticks) + 2
        && world.Acked(old(world.turns), 1) && Expired(world.clock(old(world.ticks) + 1)).None?
      ensures world.Calm(old(world.turns), 1) && FinishTxn(old(world.store.db), r, ResponseObserved).Commit?
              && Expired(world.clock(old(world.ticks) + 1)).None? ==>
        failure.None? && world.store.db == FinishTxn(old(world.store.db), r, ResponseObserved).db
    {
      hide Inv, Evolves, SysInv, InOrder, AttemptEnd, World.Valid, Expired, FinishTxn, Working, Tracks;
      ghost var n := world.ticks;
      if Expired(world.clock(n + 1)).None? { EarlierWhileWorking(n, n + 1); }
      p := FinishAttempt(Progress(true, true, true, false, false), r, ResponseObserved);
      if !p.terminalAck {
        return p, Some(OtherFailure);
      }
      TerminalIsDelivered(p, r);
      failure := GuardWorking("CUSTODY_ACK", p, r);
      if failure.None? {
        failure := GuardWorking("TRANSPORT_RETURN", p, r);
      }
    }

    lemma TerminalIsDelivered(p: Progress, r: Reservation)
      requires Tracks(p, r) && p.reserved && p.terminalAck
      ensures Bound(world.store.db, r)
      ensures world.store.db.attempts[r.attemptId].outcome == Some(ResponseObserved) ==> Delivered(world.store.db, r)
    {
    }

    /** A guard while the attempt is on its way. */
    method GuardWorking(stage: string, ghost p: Progress, ghost r: Reservation) returns (failure: Option<Failure>)
      requires Working() && Tracks(p, r)
      modifies this`events, world`ticks, world`latest
      ensures Working() && Tracks(p, r) && old(events) <= events
      ensures failure.None? <==> Expired(world.clock(old(world.ticks))).None?
      ensures world.ticks == old(world.ticks) + 1
      ensures failure.None? ==> events == old(events)
      ensures failure.Some? ==> !Mismatch(failure.value)
    {
      hide Inv, Evolves, SysInv, InOrder, AttemptEnd, World.Valid, Expired;
      var now;
      now, failure := Guard(stage);
    }

    /** The code recorded for an exception that reached the transport's handler. */
    method FailureCode(f: Failure) returns (code: string)
      requires world.Valid()
      modifies world`ticks, world`latest
      ensures world.Valid() && old(world.latest) <= world.latest
      ensures f.Bounded? ==> code == f.code
      ensures code == MODEL_MISMATCH <==> Mismatch(f)
      ensures f.EvaluationTimeout? ==>
        var now := world.clock(old(world.ticks));
        code == if roleDeadline.Some? && roleDeadline.value <= now
                   && (attemptDeadline.Some? ==> now < attemptDeadline.value)
                then "EVALUATION_ROLE_DEADLINE" else "EVALUATION_ATTEMPT_DEADLINE"
      ensures f.ForeignTimeout? || f.ProviderTimeout? ==> code == "PROVIDER_TIMEOUT"
      ensures f.Cancelled? || f.OtherFailure? ==> code == "PROVIDER_COMPLETION_UNKNOWN"
    {
      match f
      case Bounded(c) => code := c;
      case EvaluationTimeout =>
        var now := world.Now();
        code := if Expired(now) == Some(RoleScope) then "EVALUATION_ROLE_DEADLINE" else "EVALUATION_ATTEMPT_DEADLINE";
      case ForeignTimeout => code := "PROVIDER_TIMEOUT";
      case ProviderTimeout => code := "PROVIDER_TIMEOUT";
      case _ => code := "PROVIDER_COMPLETION_UNKNOWN";
    }

    /** The outcome written for an attempt that did not end in custody. */
    function FailureOutcome(code: string, p: Progress): Outcome
      reads this`responseObserved
    {
      if !p.startAttempted && !p.delegateEntered then ReservationNoSend
      else if code == MODEL_MISMATCH then ModelIdentityRejected
      else if responseObserved then ResponseRejected
      else CompletionUnknown
    }

    /** The custody of attempt r after an exit: terminal in the ledger, or recorded
        as unacknowledged; and a claim of "no send" is only made before any start. */
    ghost predicate CustodySettled(p: Progress, r: Reservation, n: nat)
      reads this`events, world, world.store
    {
      p.reserved ==>
        && Bound(world.store.db, r)
        && (world.store.db.attempts[r.attemptId].state == Terminal || Unacknowledged(events, n))
        && (world.store.db.attempts[r.attemptId].outcome == Some(ReservationNoSend) ==> !p.startAttempted)
    }

    method SettleCustody(p: Progress, r: Reservation, code: string) returns (acknowledged: bool)
      requires Working() && Tracks(p, r)
      modifies this`events, world`caps, world`turns, world.store
      ensures Working()
      ensures old(events) <= events && CustodySettled(p, r, |old(events)|)
      ensures p.reserved && !p.finishAttempted ==> Claims(r, FailureOutcome(code, p))
      ensures !(p.reserved && !p.finishAttempted) ==> unchanged(world.store)
      ensures acknowledged <==> !Unacknowledged(events, |old(events)|)
      ensures !p.finishAttempted && !p.reserved ==> acknowledged
      ensures p.finishAttempted ==> (acknowledged <==> p.terminalAck)
    {
      hide Inv, Evolves, SysInv, InOrder, AttemptEnd, World.Valid;
      var p' := p;
      if p.reserved && !p.finishAttempted {
        p' := FinishAttempt(p, r, FailureOutcome(code, p));
      }
      acknowledged := !p'.finishAttempted || p'.terminalAck;
      if !acknowledged {
        ghost var n := |events|;
        events := events + [CustodyUnacknowledged];
        assert events[n] == CustodyUnacknowledged;
      }
    }

    /** What is left to claim of an attempt that failed with f and has no outcome yet. */
    function OutcomeLeft(p: Progress, f: Failure): Outcome
      reads this`responseObserved
    {
      if !p.startAttempted && !p.delegateEntered then ReservationNoSend
      else if Mismatch(f) then ModelIdentityRejected
      else if responseObserved then ResponseRejected
      else CompletionUnknown
    }

    twostate lemma ClaimStands(r: Reservation, o: Outcome)
      requires old(Claims(r, o)) && r.attemptId in world.store.db.attempts
      requires world.store.db.attempts[r.attemptId] == old(world.store.db.attempts)[r.attemptId]
      ensures Claims(r, o)
    {
    }

    /** The stop that ends a failed call, and what it raises: the custody first, then the failure itself; a cancellation
        stays one only if all of it was recorded. */
    ghost predicate RaisedFor(f: Failure, settled: bool, last: TransportEvent, result: Result) {
      && last.StopEvent?
      && (!settled ==> last.reason == "BUDGET_CUSTODY_UNAVAILABLE")
      && (settled ==> match f
            case Bounded(code) => last.reason == code
            case EvaluationTimeout => last.reason in {"EVALUATION_ROLE_DEADLINE", "EVALUATION_ATTEMPT_DEADLINE"}
            case ForeignTimeout => last.reason == "PROVIDER_TIMEOUT"
            case ProviderTimeout => last.reason == "PROVIDER_TIMEOUT"
            case _ => last.reason == "PROVIDER_COMPLETION_UNKNOWN")
      && result == Raised(if !last.persisted then Bounded("BUDGET_CUSTODY_UNAVAILABLE")
                          else if f.Cancelled? && settled then Cancelled
                          else Bounded(last.reason))
    }

    /** The except branch: settle the custody, then stop the run. */
    method Recover(f: Failure, p: Progress, r: Reservation) returns (result: Result)
      requires Working() && Tracks(p, r)
      modifies this`stopped, this`acceptance, this`events
      modifies world`caps, world`turns, world`ticks, world`latest, world.store
      ensures Base()
      ensures stopped && acceptance == None && result.Raised?
      ensures old(events) <= events && StopAttempted(events, |old(events)|)
      ensures CustodySettled(p, r, |old(events)|)
      ensures |events| > |old(events)|
      ensures RaisedFor(f, !Unacknowledged(events[..|events| - 1], |old(events)|), events[|events| - 1], result)
      ensures p.finishAttempted ==> forall o | old(Claims(r, o)) :: Claims(r, o)
      ensures p.reserved && !p.finishAttempted ==> Claims(r, OutcomeLeft(p, f))
    {
      hide Inv, Evolves, SysInv, InOrder, AttemptEnd, World.Valid, GoodDelegation, OutcomeLeft, Mismatch, StopAttempted;
      hide Expired, CustodySettled, Claims;
      stopped := true;
      acceptance := None;
      var code, acknowledged := SettleAfter(f, p, r);
      var failure := StopSettled(if acknowledged then code else "BUDGET_CUSTODY_UNAVAILABLE", p, r, |old(events)|);
      result := Raised(if f.Cancelled? && failure == Bounded(code) then Cancelled else failure);
    }

    /** The stop after the custody of r was settled, which it leaves alone. */
    method StopSettled(reason: string, ghost p: Progress, ghost r: Reservation, ghost n: nat) returns (failure: Failure)
      requires Base() && n <= |events| && CustodySettled(p, r, n) && (p.reserved ==> world.Excludes(r.attemptId))
      modifies this`stopped, this`acceptance, this`events, world`caps, world`turns, world.store
      ensures Base() && stopped && acceptance == None
      ensures old(events) <= events && StopAttempted(events, n) && CustodySettled(p, r, n)
      ensures |events| == |old(events)| + 1 && events[..|events| - 1] == old(events)
      ensures events[|events| - 1].StopEvent? && events[|events| - 1].reason == reason
      ensures failure == Bounded(if events[|events| - 1].persisted then reason else "BUDGET_CUSTODY_UNAVAILABLE")
      ensures p.reserved ==> forall o | old(Claims(r, o)) :: Claims(r, o)
    {
      hide Inv, Evolves, SysInv, InOrder, AttemptEnd, World.Valid, StopAttempted, Unacknowledged, Base;
      ghost var es := events;
      failure := StopRun(reason);
      MoreEvents(es, events, n);
    }

    method SettleAfter(f: Failure, p: Progress, r: Reservation) returns (code: string, acknowledged: bool)
      requires Working() && Tracks(p, r)
      modifies this`events, world`caps, world`turns, world`ticks, world`latest, world.store
      ensures Working() && (p.finishAttempted ==> p.reserved) && (p.reserved ==> world.Excludes(r.attemptId))
      ensures old(events) <= events && CustodySettled(p, r, |old(events)|)
      ensures acknowledged <==> !Unacknowledged(events, |old(events)|)
      ensures match f
        case Bounded(c) => code == c
        case EvaluationTimeout => code in {"EVALUATION_ROLE_DEADLINE", "EVALUATION_ATTEMPT_DEADLINE"}
        case ForeignTimeout => code == "PROVIDER_TIMEOUT"
        case ProviderTimeout => code == "PROVIDER_TIMEOUT"
        case _ => code == "PROVIDER_COMPLETION_UNKNOWN"
      ensures p.finishAttempted ==> forall o | old(Claims(r, o)) :: Claims(r, o)
      ensures p.reserved && !p.finishAttempted ==> Claims(r, OutcomeLeft(p, f))
    {
      hide Inv, Evolves, SysInv, InOrder, AttemptEnd, World.Valid, GoodDelegation, Expired;
      code := FailureCode(f);
      hide Working, Mismatch, CustodySettled;
      CodeLeft(p, f, code);
      acknowledged := SettleCustody(p, r, code);
    }

    lemma CodeLeft(p: Progress, f: Failure, code: string)
      requires code == MODEL_MISMATCH <==> Mismatch(f)
      ensures FailureOutcome(code, p) == OutcomeLeft(p, f)
    {
    }

    /** What every success needed: a good response, acknowledged reserve, start, check and finish, and the last of its
        samples before both deadlines. */
    ghost predicate Succeeded(x: Exchange, turn: nat, tick: nat)
      reads this, world
    {
      && GoodDelivery(x.delivery, requestedModel) && world.Acked(turn, 3) && world.Acked(turn + 4, 1)
      && world.turns == turn + 5 && world.ticks == tick + 11 && Expired(world.clock(tick + 10)).None?
    }

    /** How an attempt stands that failed at or after the delegate, its samples there from tick n on. */
    ghost predicate SentAndFailed(x: Exchange, p: Progress, f: Failure, r: Reservation, n: nat)
      reads this, world, world.store
    {
      if GoodDelivery(x.delivery, requestedModel) && Expired(world.clock(n + 4)).None? then
        p.finishAttempted && Claims(r, ResponseObserved)
      else
        && !p.finishAttempted && p.startAttempted
        && (responseObserved <==> x.delivery.Response?)
        && (Mismatch(f) <==> Disowned(x.delivery, n))
    }

    /** The try body: admission, the delegate, and the custody of its response. */
    method TryAttempt(x: Exchange, r: Reservation) returns (p: Progress, failure: Option<Failure>)
      requires Working() && !entered && delegations == [] && !responseObserved
      requires Tracks(Progress(false, false, false, false, false), r)
      modifies this`events, this`entered, this`custody, this`delegations, this`responseObserved
      modifies world`caps, world`turns, world`ticks, world`latest, world.store
      ensures Working() && Tracks(p, r) && old(events) <= events
      ensures |delegations| <= 1 && (delegations != [] ==> entered && delegations[0].r == r)
      ensures failure.None? ==> events == old(events) + [CustodyAck(ResponseObserved)]
      ensures p.delegateEntered <==> delegations != []
      ensures responseObserved ==> old(responseObserved) || delegations != []
      ensures if p.reserved then custody == Some(r) else failure.Some? && custody == old(custody)
      ensures p.reserved && failure.Some? ==>
        if p.delegateEntered
        then Expired(world.clock(old(world.ticks))).None? && SentAndFailed(x, p, failure.value, r, old(world.ticks) + 4)
        else NeverSent(p, failure.value, r, old(world.ticks)) && !responseObserved
      ensures failure.None? ==> Expired(world.clock(old(world.ticks))).None?
      ensures failure.None? ==> responseObserved && Delivered(world.store.db, r) && custody == Some(r)
      ensures failure.None? ==> Succeeded(x, old(world.turns), old(world.ticks)) && entered
      ensures world.Calm(old(world.turns), 5) && Admissible(old(world.store.db), budget.active, r)
              && GoodDelivery(x.delivery, requestedModel)
              && Expired(world.clock(old(world.ticks) + 10)).None? ==>
        failure.None? && world.store.db == AnsweredLedger(old(world.store.db), budget.active, r)
    {
      hide Inv, Evolves, SysInv, InOrder, AttemptEnd, World.Valid;
      hide ReserveTxn, StartTxn, FinishTxn, AssertActiveTxn, Admissible;
      hide NeverSent, SentAndFailed, Mismatch, Claims, InFlightLedger, Working, Tracks, Checked;
      hide GoodDelivery, Delivered, Expired, World.Calm, World.Acked;
      ghost var n, k := world.ticks, world.turns;
      if Expired(world.clock(n + 10)).None? { EarlierWhileWorking(n + 3, n + 10); }
      if world.Calm(k, 5) {
        world.CalmWithin(k, 5, 0, 3);
        world.CalmWithin(k, 5, 3, 1);
        world.CalmWithin(k, 5, 4, 1);
      }
      ghost var checked;
      p, failure, checked := Admit(r);
      if failure.Some? {
        return;
      }
      EnterDelegate(r, checked);
      p, failure := Deliver(x, r);
    }

    /** From the delegate's answer to the durable observation of the response. */
    method Deliver(x: Exchange, r: Reservation) returns (p: Progress, failure: Option<Failure>)
      requires Working() && Tracks(Progress(true, true, true, false, false), r)
      modifies this`events, this`responseObserved, world`caps, world`turns, world`ticks, world`latest, world.store
      ensures Working() && Tracks(p, r) && old(events) <= events && p.reserved && p.delegateEntered
      ensures !old(responseObserved) && failure.Some? ==> SentAndFailed(x, p, failure.value, r, old(world.ticks))
      ensures failure.None? ==> events == old(events) + [CustodyAck(ResponseObserved)]
      ensures failure.None? ==> responseObserved && Delivered(world.store.db, r)
      ensures failure.None? ==>
        && GoodDelivery(x.delivery, requestedModel) && world.Acked(old(world.turns), 1)
        && world.turns == old(world.turns) + 1 && world.ticks == old(world.ticks) + 7
        && Expired(world.clock(old(world.ticks) + 6)).None?
      ensures world.Calm(old(world.turns), 1) && FinishTxn(old(world.store.db), r, ResponseObserved).Commit?
              && GoodDelivery(x.delivery, requestedModel)
              && Expired(world.clock(old(world.ticks) + 6)).None? ==>
        failure.None? && world.store.db == FinishTxn(old(world.store.db), r, ResponseObserved).db
    {
      hide Inv, Evolves, SysInv, InOrder, AttemptEnd, World.Valid, Expired, FinishTxn;
      ghost var n := world.ticks;
      if Expired(world.clock(n + 6)).None? { EarlierInTime(n + 4, n + 6); }
      p := Progress(true, true, true, false, false);
      failure := Receive(x);
      if failure.Some? {
        return;
      }
      p, failure := Conclude(r);
    }

    /** The armed request and no other. */
    predicate GoodRequest(x: Exchange)
      reads this`armed
    {
      x.endpointMatches && x.payload.Some? && x.payload == armed && x.model == requestedModel
    }

    /** The checks in front of the reservation. */
    method CheckRequest(x: Exchange) returns (failure: Option<Failure>)
      requires Base() && !stopped
      modifies this`stopped, this`acceptance, this`events, world`caps, world`turns, world.store
      ensures Base() && old(events) <= events
      ensures failure.Some? ==> stopped && acceptance == None && StopAttempted(events, |old(events)|)
      ensures failure.None? <==> GoodRequest(x)
      ensures failure.None? ==> unchanged(this) && unchanged(world) && unchanged(world.store)
    {
      hide Inv, Evolves, SysInv, InOrder, AttemptEnd, World.Valid;
      failure := None;
      if !x.endpointMatches {
        var f := StopRun("PROVIDER_ENDPOINT_OR_METHOD_MISMATCH");
        return Some(f);
      }
      if x.payload.None? || x.payload != armed || x.model != requestedModel {
        var f := StopRun("PROVIDER_PAYLOAD_IDENTITY_MISMATCH");
        return Some(f);
      }
    }

    /** handle_async_request.  attemptId and correlationId are the fresh tokens of
        the reservation, which this transport shows to nobody else. */
    method HandleAsyncRequest(x: Exchange, attemptId: Id, correlationId: Id) returns (result: Result)
      requires Valid() && world.Excludes(attemptId)
      modifies this, world`caps, world`turns, world`ticks, world`latest, world`mark, world.store
      ensures Valid() && old(events) <= events
      ensures Evolves(old(world.store.db), world.store.db)
      ensures old(stopped) ==> stopped
      ensures TookDeadlines(old(requests), old(roleDeadline), old(world.ticks))
      ensures acceptance.Some? ==> acceptance == old(acceptance)
      // The delegate is entered at most once more, with the very attempt reserved here.
      ensures old(delegations) <= delegations && |delegations| <= 1
      ensures delegations != old(delegations) ==> custody.Some? && delegations[0].r == custody.value
      // A normal return means acknowledged custody of the response.
      ensures result.Returned? ==>
        && !stopped && delegations != old(delegations)
        && custody.Some? && custody.value.attemptId == attemptId && Delivered(world.store.db, custody.value)
      // It needs a ready transport, the armed request, a good response, acknowledged commits and samples in time; and
      // where nobody else acts and the ledger admits the attempt, it needs nothing more.
      ensures result.Returned? ==>
        && old(Ready(x)) && Succeeded(x, old(world.turns), old(world.ticks) + 1)
        && entered && responseObserved && Intact() && events == old(events) + [CustodyAck(ResponseObserved)]
      ensures world.Calm(old(world.turns), 5) && old(Ready(x)) && GoodDelivery(x.delivery, requestedModel)
              && Admissible(old(world.store.db), budget.active, old(ReservationOf(x, attemptId, correlationId)))
              && Expired(world.clock(old(world.ticks) + 11)).None? ==>
        && result.Returned?
        && world.store.db == AnsweredLedger(old(world.store.db), budget.active,
                                            old(ReservationOf(x, attemptId, correlationId)))
      // The refusal to reissue changes the deadlines and nothing else.
      ensures old(Spent()) ==>
        && result == Raised(Bounded("REISSUE_OR_STOPPED_TRANSPORT")) && Spent()
        && responseObserved == old(responseObserved) && custody == old(custody) && delegations == old(delegations)
        && world.ticks == old(world.ticks) + 1 && world.turns == old(world.turns) && unchanged(world.store)
      // Every failing exit stops, except the refusal to reissue.
      ensures result.Raised? ==> (stopped && StopAttempted(events, |old(events)|)) || old(stopped) || old(entered)
      // Every exit after a reservation leaves its custody settled.
      ensures custody != old(custody) ==>
        && custody.Some? && custody.value.attemptId == attemptId && Bound(world.store.db, custody.value)
        && (world.store.db.attempts[attemptId].state == Terminal || Unacknowledged(events, |old(events)|))
        && (world.store.db.attempts[attemptId].outcome == Some(ReservationNoSend) ==> delegations == old(delegations))
        && (result.Raised? ==> stopped && StopAttempted(events, |old(events)|))
      // Where the attempt ended, it ended with the outcome due to its exchange and samples.
      ensures custody != old(custody) && world.store.db.attempts[attemptId].state == Terminal ==>
        world.store.db.attempts[attemptId].outcome
        == Some(DueOutcome(x, old(world.ticks) + 1, delegations != old(delegations)))
    {
      hide Inv, Evolves, SysInv, InOrder, AttemptEnd, World.Valid, Expired;
      hide Admissible, GoodDelivery, StopAttempted, Unacknowledged;
      hide World.Calm, World.Acked, GoodDelegation, Timed, Valid, Working, Tracks, Succeeded, TookDeadlines;
      hide GoodRequest, Intact, Delivered, DueOutcome, AnsweredLedger, Settled;
      MarkNow();
      var failure := Prepare(x);
      if failure.Some? {
        result := Raised(failure.value);
      } else {
        ReadyToSend(ReservationOf(x, attemptId, correlationId));
        result := Send(x, ReservationOf(x, attemptId, correlationId));
      }
      GrewSinceMark();
    }

    lemma ReadyToSend(r: Reservation)
      requires Valid() && !stopped && !entered
      requires r.observation == observation && r.role == role && r.retry == 0 && world.Excludes(r.attemptId)
      ensures delegations == [] && custody == None && !responseObserved && (armed.Some? <==> schema.Some?)
      ensures Tracks(Progress(false, false, false, false, false), r)
    {
    }

    /** The first attempt of the armed request. */
    function ReservationOf(x: Exchange, attemptId: Id, correlationId: Id): Reservation
      reads this`schema
    {
      var digest := if schema.Some? then schema.value else x.request;
      Reservation(attemptId, correlationId, observation, role, requestedModel, x.request, x.prompt, digest, 0, None)
    }

    /** The request meets a transport that may send it. */
    predicate Ready(x: Exchange)
      reads this`stopped, this`entered, this`delegate, this`shutdown, this`armed
    {
      !stopped && !entered && Intact() && GoodRequest(x)
    }

    /** The one send is spent, and nothing went wrong since. */
    predicate Spent()
      reads this`stopped, this`entered, this`delegate, this`shutdown
    {
      !stopped && entered && Intact()
    }

    /** A request came in: it set the attempt deadline, and the role deadline if there was none. */
    ghost predicate TookDeadlines(before: seq<real>, roleEnd: Option<real>, tick: nat)
      reads this`requests, this`attemptDeadline, this`roleDeadline
    {
      var now := world.clock(tick);
      && requests == before + [now] && attemptDeadline == Some(now + deadlines.attempt)
      && roleDeadline == (if roleEnd.Some? then roleEnd else Some(now + deadlines.role))
    }

    /** The deadlines, the identity of the transport and of the request. */
    method Prepare(x: Exchange) returns (failure: Option<Failure>)
      requires Valid()
      modifies this`attemptDeadline, this`roleDeadline, this`requests, this`stopped, this`acceptance, this`events
      modifies world`caps, world`turns, world`ticks, world`latest, world.store
      ensures Valid() && old(events) <= events
      ensures acceptance.Some? ==> acceptance == old(acceptance)
      ensures old(stopped) ==> stopped
      ensures TookDeadlines(old(requests), old(roleDeadline), old(world.ticks))
      ensures failure.Some? ==> (stopped && StopAttempted(events, |old(events)|)) || old(stopped) || old(entered)
      ensures failure.None? ==> Working() && !stopped && !entered && schema.Some? && events == old(events)
      ensures failure.None? <==> old(Ready(x))
      ensures !old(Intact()) ==>
        failure.value in {Bounded("TRANSPORT_IDENTITY_CHANGED"), Bounded("BUDGET_CUSTODY_UNAVAILABLE")}
      ensures failure.None? || old(Spent()) ==>
        world.ticks == old(world.ticks) + 1 && world.turns == old(world.turns) && unchanged(world.store)
      ensures old(Spent()) ==> failure == Some(Bounded("REISSUE_OR_STOPPED_TRANSPORT")) && Spent()
    {
      hide Inv, Evolves, SysInv, InOrder, AttemptEnd, World.Valid;
      SetDeadlines();
      failure := Integrity();
      if failure.Some? {
        return;
      }
      if stopped || entered {
        return Some(Bounded("REISSUE_OR_STOPPED_TRANSPORT"));
      }
      failure := CheckRequest(x);
    }

    /** Every request overwrites the attempt deadline, also one about to be refused; the role deadline is set once. */
    method SetDeadlines()
      requires Valid()
      modifies this`attemptDeadline, this`roleDeadline, this`requests, world`ticks, world`latest
      ensures requests == old(requests) + [world.latest]
      ensures world.latest == world.clock(old(world.ticks)) && world.ticks == old(world.ticks) + 1
      ensures Valid() && attemptDeadline.Some? && roleDeadline.Some?
      ensures attemptDeadline.value == world.latest + deadlines.attempt
      ensures roleDeadline == if old(roleDeadline).Some? then old(roleDeadline) else Some(world.latest + deadlines.role)
      ensures acceptance.Some? ==> acceptance.value < attemptDeadline.value
    {
      hide Inv, Evolves, SysInv;
      var now := world.Now();
      requests := requests + [now];
      attemptDeadline := Some(now + deadlines.attempt);
      if roleDeadline.None? {
        roleDeadline := Some(now + deadlines.role);
      }
    }

    method Send(x: Exchange, r: Reservation) returns (result: Result)
      requires Working() && !entered && !stopped && delegations == [] && custody == None && !responseObserved
      requires armed.Some? <==> schema.Some?
      requires Tracks(Progress(false, false, false, false, false), r)
      modifies this`stopped, this`acceptance, this`events, this`entered, this`custody, this`delegations
      modifies this`responseObserved
      modifies world`caps, world`turns, world`ticks, world`latest, world.store
      ensures Valid() && old(events) <= events && acceptance == None
      ensures delegations != [] ==> custody == Some(r) && delegations[0].r == r
      ensures result.Returned? ==> !stopped && delegations != [] && custody == Some(r) && Delivered(world.store.db, r)
      ensures result.Raised? ==> stopped && StopAttempted(events, |old(events)|)
      ensures result.Returned? ==> Succeeded(x, old(world.turns), old(world.ticks)) && entered && responseObserved
      ensures result.Returned? ==> custody.value.attemptId == r.attemptId
      ensures result.Returned? ==> events == old(events) + [CustodyAck(ResponseObserved)]
      ensures world.Calm(old(world.turns), 5) && Admissible(old(world.store.db), budget.active, r)
              && GoodDelivery(x.delivery, requestedModel)
              && Expired(world.clock(old(world.ticks) + 10)).None? ==>
        result.Returned? && world.store.db == AnsweredLedger(old(world.store.db), budget.active, r)
      ensures custody.Some? ==> Claims(r, DueOutcome(x, old(world.ticks), delegations != []))
      ensures custody.Some? ==>
        && custody == Some(r) && Bound(world.store.db, r)
        && (world.store.db.attempts[r.attemptId].state == Terminal || Unacknowledged(events, |old(events)|))
        && (world.store.db.attempts[r.attemptId].outcome == Some(ReservationNoSend) ==> delegations == [])
    {
      hide Inv, Evolves, SysInv, InOrder, AttemptEnd, World.Valid;
      hide StopAttempted, Unacknowledged, CustodySettled, Succeeded;
      hide Admissible, GoodDelivery, Expired, World.Calm, World.Acked, Delivered, GoodDelegation, Timed;
      hide Valid, AcceptanceSound, DueOutcome, NeverSent, SentAndFailed, Disowned, Mismatch;
      ghost var n, k := world.ticks, world.turns;
      var p, failure := TryAttempt(x, r);
      result := Returned;
      if failure.Some? {
        StartPrecedesDelegate(p, r);
        result := RecoverSent(x, p, failure.value, r, n, |old(events)|);
      } else {
        SettledAfterReturn(r, |old(events)|);
        ReturnedAsDue(x, r, n, k);
      }
      SentIsValid(r);
    }

    method RecoverSent(x: Exchange, p: Progress, f: Failure, r: Reservation, ghost n: nat, ghost start: nat)
      returns (result: Result)
      requires Working() && Tracks(p, r) && start <= |events|
      requires if p.reserved then custody == Some(r) else custody == None
      requires (p.delegateEntered <==> delegations != []) && (p.delegateEntered ==> p.startAttempted)
      requires p.reserved ==>
        if p.delegateEntered then Expired(world.clock(n)).None? && SentAndFailed(x, p, f, r, n + 4)
        else NeverSent(p, f, r, n) && !responseObserved
      modifies this`stopped, this`acceptance, this`events
      modifies world`caps, world`turns, world`ticks, world`latest, world.store
      ensures Base() && stopped && acceptance == None && result.Raised?
      ensures old(events) <= events && StopAttempted(events, start) && Settled(r, start)
      ensures custody.Some? ==> Claims(r, DueOutcome(x, n, delegations != []))
    {
      hide Inv, Evolves, SysInv, InOrder, AttemptEnd, World.Valid, Working, Base, Tracks;
      hide StopAttempted, Unacknowledged, CustodySettled, Settled, Claims, DueOutcome, NeverSent, SentAndFailed;
      hide Expired, OutcomeLeft;
      if p.reserved { FailedAsDue(x, p, f, r, n); }
      ghost var es := events;
      result := Recover(f, p, r);
      MoreEvents(es, events, start);
      SettledAfterRecovery(p, r, es, start);
    }

    /** A failed attempt either ended already as it is due to, or is left to end so. */
    lemma FailedAsDue(x: Exchange, p: Progress, f: Failure, r: Reservation, n: nat)
      requires p.reserved && (p.delegateEntered <==> delegations != []) && (p.delegateEntered ==> p.startAttempted)
      requires if p.delegateEntered then Expired(world.clock(n)).None? && SentAndFailed(x, p, f, r, n + 4)
               else NeverSent(p, f, r, n) && !responseObserved
      ensures p.finishAttempted ==> Claims(r, DueOutcome(x, n, delegations != []))
      ensures !p.finishAttempted ==>
        DueOutcome(x, n, delegations != []) == OutcomeLeft(p, f)
    {
      hide Mismatch, Expired, GoodDelivery, Claims;
      if p.delegateEntered && x.delivery.Response? { hide Disowned; }
    }

    lemma ReturnedAsDue(x: Exchange, r: Reservation, n: nat, turn: nat)
      requires world.Valid() && Succeeded(x, turn, n) && Delivered(world.store.db, r) && delegations != []
      requires Expired(world.clock(n)).None?
      ensures Claims(r, DueOutcome(x, n, true))
    {
      hide World.Valid, Expired, GoodDelivery, Disowned;
      EarlierInTime(n + 8, n + 10);
    }

    lemma SentIsValid(r: Reservation)
      requires Base() && acceptance == None && attemptDeadline.Some? && roleDeadline.Some?
              && (armed.Some? <==> schema.Some?)
      requires |delegations| <= 1 && forall d | d in delegations :: GoodDelegation(d)
      requires delegations != [] ==> entered && custody == Some(r) && delegations[0].r == r
      requires responseObserved ==> delegations != []
      requires custody.Some? ==> custody == Some(r) && (entered || stopped) && world.Excludes(r.attemptId)
      requires responseObserved && !stopped ==> custody == Some(r) && Delivered(world.store.db, r)
      ensures Valid()
    {
    }

    /** The custody of a reservation after the call that made it. */
    ghost predicate Settled(r: Reservation, n: nat)
      reads this, world, world.store
    {
      custody.Some? ==>
        && custody == Some(r) && Bound(world.store.db, r)
        && (world.store.db.attempts[r.attemptId].state == Terminal || Unacknowledged(events, n))
        && (world.store.db.attempts[r.attemptId].outcome == Some(ReservationNoSend) ==> delegations == [])
    }

    lemma StartPrecedesDelegate(p: Progress, r: Reservation)
      requires Tracks(p, r)
      ensures p.delegateEntered ==> p.startAttempted
    {
    }

    lemma SettledAfterReturn(r: Reservation, n: nat)
      requires custody == Some(r) && Delivered(world.store.db, r)
      ensures Settled(r, n)
    {
    }

    lemma SettledAfterRecovery(p: Progress, r: Reservation, es: seq<TransportEvent>, n: nat)
      requires n <= |es| && es <= events && CustodySettled(p, r, |es|)
      requires if p.reserved then custody == Some(r) else custody == None
      requires (p.delegateEntered <==> delegations != []) && (p.delegateEntered ==> p.startAttempted)
      ensures Settled(r, n)
    {
    }

    /** accept_role: publishes acceptance after a last look at the ledger and the clock. */
    method AcceptRole() returns (failure: Option<Failure>)
      requires Valid()
      modifies this`events, this`acceptance, this`accepted
      modifies world`caps, world`turns, world`ticks, world`latest, world`mark, world.store
      ensures Valid() && Evolves(old(world.store.db), world.store.db) && old(events) <= events
      ensures failure.None? ==> acceptance == Some(world.clock(old(world.ticks) + 2))
      ensures failure.None? ==> acceptance.Some? && events == old(events) + [RoleAccepted(acceptance.value)]
      ensures failure.None? ==> world.store.db == old(world.Met()).db && world.turns == old(world.turns) + 1
      ensures failure.Some? ==> acceptance == old(acceptance)
      ensures failure.None? <==>
        && old(responseObserved && entered && !stopped)
        && world.Acked(old(world.turns), 1) && !old(world.Met()).db.stopped
        && Expired(world.clock(old(world.ticks) + 2)).None?
    {
      hide Inv, Evolves, SysInv, InOrder, AttemptEnd, World.Valid, Expired, Valid, World.Acked, World.Met;
      ghost var n := world.ticks;
      if Expired(world.clock(n + 2)).None? {
        EarlierWhileValid(n, n + 2);
        EarlierWhileValid(n + 1, n + 2);
      }
      MarkNow();
      failure := AcceptMarked();
      GrewSinceMark();
    }

    method AcceptMarked() returns (failure: Option<Failure>)
      requires Valid()
      modifies this`events, this`acceptance, this`accepted
      modifies world`caps, world`turns, world`ticks, world`latest, world.store
      ensures Valid() && old(events) <= events
      ensures failure.None? ==> acceptance == Some(world.clock(old(world.ticks) + 2))
      ensures failure.None? ==> acceptance.Some? && events == old(events) + [RoleAccepted(acceptance.value)]
      ensures failure.None? ==> world.store.db == old(world.Met()).db && world.turns == old(world.turns) + 1
      ensures failure.Some? ==> acceptance == old(acceptance)
      ensures failure.None? <==>
        && old(responseObserved && entered && !stopped)
        && world.Acked(old(world.turns), 1) && !old(world.Met()).db.stopped
        && Expired(world.clock(old(world.ticks))).None? && Expired(world.clock(old(world.ticks) + 1)).None?
        && Expired(world.clock(old(world.ticks) + 2)).None?
    {
      hide Inv, Evolves, SysInv, InOrder, AttemptEnd, World.Valid, Expired, Valid, World.Acked, World.Met;
      failure := GuardKeepingValid("LOCAL_TYPED_PROCESSING");
      if failure.Some? {
        return;
      }
      if !responseObserved || !entered {
        return Some(Bounded("MISSING_ACKNOWLEDGED_PROVIDER_RESPONSE"));
      }
      var state := TakeSnapshot();
      if state.None? {
        return Some(OtherFailure);
      }
      failure := GuardKeepingValid("CUSTODY_SNAPSHOT");
      if failure.Some? {
        return;
      }
      if stopped || state.value.stopped {
        return Some(Bounded("RUN_STOPPED_AFTER_RESPONSE"));
      }
      failure := Publish(state.value);
    }

    method TakeSnapshot() returns (state: Option<Ledger>)
      requires Valid()
      modifies world`caps, world`turns, world.store
      ensures Valid()
      ensures state == if world.Acked(old(world.turns), 1) then Some(world.store.db) else None
      ensures world.store.db == old(world.Met()).db && world.turns == old(world.turns) + 1
    {
      hide Inv, Evolves, SysInv, InOrder, AttemptEnd, World.Valid;
      var fate := world.Turn(budget);
      state := budget.Snapshot(fate);
    }

    /** The final sample, and publication if it lies before both deadlines. */
    method Publish(state: Ledger) returns (failure: Option<Failure>)
      requires Valid() && responseObserved && !stopped && !state.stopped && state == world.store.db
      modifies this`events, this`acceptance, this`accepted, world`ticks, world`latest
      ensures Valid() && old(events) <= events
      ensures failure.None? <==> Expired(world.clock(old(world.ticks))).None?
      ensures failure.None? ==> acceptance == Some(world.clock(old(world.ticks)))
      ensures failure.None? ==> acceptance.Some? && events == old(events) + [RoleAccepted(acceptance.value)]
      ensures failure.Some? ==> acceptance == old(acceptance)
    {
      hide Inv, Evolves, SysInv, InOrder, AttemptEnd, World.Valid;
      var now;
      now, failure := Guard("FINAL_ACCEPTANCE");
      if failure.None? {
        accepted := Some(state);
        acceptance := Some(now);
        events := events + [RoleAccepted(now)];
      }
    }

    /** propose / assess: one role around a provider that calls the transport as
        often as it likes, whatever the calls return, and then fails or not. */
    method PerformRole(payload: Id, schemaDigest: Id, calls: seq<(Exchange, Id, Id)>, provider: Option<Failure>)
      returns (failure: Option<Failure>)
      requires Valid() && forall c | c in calls :: world.Excludes(c.1)
      modifies this, world`caps, world`turns, world`ticks, world`latest, world`mark, world.store
      ensures Valid() && old(events) <= events
      ensures failure.None? ==> acceptance.Some? && provider.None? && |requests| == |old(requests)| + |calls|
      ensures failure.Some? ==> failure.value.Bounded? || failure.value.Cancelled?
      ensures old(roleDeadline).Some? ==>
        && failure.Some? && requests == old(requests) && delegations == old(delegations)
        && |events| == |old(events)| + 1 && events[|old(events)|].StopEvent?
        && events[|old(events)|].reason == "DUPLICATE_LOGICAL_PROVIDER_CALL"
      ensures failure.Some? ==> stopped && StopAttempted(events, |old(events)|)
    {
      hide Inv, Evolves, SysInv, InOrder, AttemptEnd, World.Valid;
      failure := BeginRole();
      if failure.Some? {
        return;
      }
      failure := RoleBody(payload, schemaDigest, calls, provider);
      if failure.Some? {
        ghost var es := events;
        var raised := FailRole(failure.value);
        MoreEvents(es, events, |old(events)|);
        failure := Some(raised);
      }
    }

    /** The except clause around a role. */
    method FailRole(f: Failure) returns (raised: Failure)
      requires Valid()
      modifies this`stopped, this`acceptance, this`events, world`caps, world`turns, world.store
      ensures Valid() && stopped && old(events) <= events && StopAttempted(events, |old(events)|)
      ensures |events| == |old(events)| + 1 && events[|old(events)|].StopEvent?
      ensures !f.Cancelled? ==>
        raised == Bounded(if events[|old(events)|].persisted then events[|old(events)|].reason
                          else "BUDGET_CUSTODY_UNAVAILABLE")
      ensures var failed := match role
          case Planner => "PLANNER_ROLE_FAILED_OR_CANCELLED"
          case Judge => "JUDGE_ROLE_FAILED_OR_CANCELLED";
        match f
        case Bounded(code) => events[|old(events)|].reason == code
        case Cancelled => events[|old(events)|].reason == failed && raised == Cancelled
        case OtherFailure => events[|old(events)|].reason == failed
        case ProviderTimeout => events[|old(events)|].reason == failed
        case _ => events[|old(events)|].reason == "EVALUATION_ROLE_DEADLINE"
    {
      hide Inv, Evolves, SysInv, InOrder, AttemptEnd, World.Valid;
      raised := StopKeepingValid(RoleFailureReason(role, f));
      if f.Cancelled? {
        raised := Cancelled;
      }
    }

    static function RoleFailureReason(role: Role, f: Failure): string {
      match f
      case Bounded(code) => code
      case EvaluationTimeout => "EVALUATION_ROLE_DEADLINE"
      case ForeignTimeout => "EVALUATION_ROLE_DEADLINE"
      case _ => RoleFailed(role)
    }

    method RoleBody(payload: Id, schemaDigest: Id, calls: seq<(Exchange, Id, Id)>, provider: Option<Failure>)
      returns (failure: Option<Failure>)
      requires Valid() && forall c | c in calls :: world.Excludes(c.1)
      modifies this, world`caps, world`turns, world`ticks, world`latest, world`mark, world.store
      ensures Valid() && old(events) <= events
      ensures failure.None? ==> acceptance.Some? && provider.None?
      // Only a role that was ready lets its provider call, and then lets it make all its calls.
      ensures
        var ready := old(Intact()) && !old(entered) && old(armed).None? && old(Expired(world.clock(world.ticks))).None?;
        && |requests| == |old(requests)| + (if ready then |calls| else 0)
        && (!ready ==> failure.Some? && delegations == old(delegations))
    {
      hide Inv, Evolves, SysInv, InOrder, AttemptEnd, World.Valid;
      failure := ReadyRole(payload, schemaDigest);
      if failure.Some? {
        return;
      }
      ProviderCalls(calls);
      if provider.Some? {
        return provider;
      }
      failure := AcceptRole();
    }

    /** What precedes the provider: integrity, the armed payload, and a sample in time. */
    method ReadyRole(payload: Id, schemaDigest: Id) returns (failure: Option<Failure>)
      requires Valid()
      modifies this`armed, this`schema, this`stopped, this`acceptance, this`events
      modifies world`caps, world`turns, world`ticks, world`latest, world.store
      ensures Valid() && old(events) <= events
      ensures failure.None? <==>
        && old(Intact()) && !old(entered) && old(armed).None?
        && Expired(world.clock(old(world.ticks))).None?
      ensures failure.None? ==>
        && armed == Some(payload) && schema == Some(schemaDigest)
        && events == old(events) && stopped == old(stopped) && acceptance == old(acceptance)
        && world.ticks == old(world.ticks) + 2 && world.turns == old(world.turns) && unchanged(world.store)
    {
      hide Inv, Evolves, SysInv, InOrder, AttemptEnd, World.Valid, Valid;
      failure := Integrity();
      if failure.Some? {
        return;
      }
      failure := Arm(payload, schemaDigest);
      if failure.Some? {
        return;
      }
      failure := GuardKeepingValid("ROLE_PREPARATION");
      if failure.None? {
        Remaining();
      }
    }

    /** _remaining, for the timeout context: one more sample. */
    method Remaining()
      requires Valid()
      modifies world`ticks, world`latest
      ensures Valid() && world.ticks == old(world.ticks) + 1
    {
      hide Inv, Evolves, SysInv, InOrder, AttemptEnd, World.Valid;
      var now := world.Now();
    }

    method ProviderCalls(calls: seq<(Exchange, Id, Id)>)
      requires Valid() && forall c | c in calls :: world.Excludes(c.1)
      modifies this, world`caps, world`turns, world`ticks, world`latest, world`mark, world.store
      ensures Valid() && old(events) <= events && |requests| == |old(requests)| + |calls|
    {
      hide Inv, Evolves, SysInv, InOrder, AttemptEnd, World.Valid, Valid;
      for i := 0 to |calls|
        invariant Valid() && old(events) <= events && |requests| == |old(requests)| + i
      {
        assert calls[i] in calls;
        var _ := HandleAsyncRequest(calls[i].0, calls[i].1, calls[i].2);
      }
    }
  }

  /** A published acceptance stands for one delegation: a first attempt of this observation and role, admitted in an
      unstopped run with the fence open, in flight when it was sent and terminal with its response now. */
  lemma AcceptanceMeansOneExchange(t: BudgetedTransport)
    requires t.Valid() && t.acceptance.Some?
    ensures |t.delegations| == 1 && !t.stopped
    ensures var d := t.delegations[0];
      && t.custody == Some(d.r) && d.r.observation == t.observation && d.r.role == t.role && d.r.retry == 0
      && !d.checked.stopped && IsOpen(d.checked.fences, t.observation) && InFlightAs(d.entry, d.r)
      && Delivered(t.world.store.db, d.r)
  {
    assert t.delegations[0] in t.delegations;
  }

  /** Whatever anyone else then does to the ledger, a transport left alone stays consistent: a published acceptance
      keeps meaning what it meant. */
  twostate lemma AcceptanceOutlastsOthers(t: BudgetedTransport)
    requires old(t.Valid()) && unchanged(t) && t.Base()
    requires Evolves(old(t.world.store.db), t.world.store.db) && old(t.world.latest) <= t.world.latest
    ensures t.Valid()
  {
    hide Inv, SysInv;
    if t.custody.Some? && t.custody.value.attemptId in old(t.world.store.db.attempts) {
      var id := t.custody.value.attemptId;
      assert AttemptEvolves(old(t.world.store.db).attempts[id], t.world.store.db.attempts[id]);
    }
  }

  /** Construction: the durable fence is acknowledged before any provider activity. */
  method OpenTransport(budget: AttemptBudget, world: World, observation: Id, fenceId: Id, role: Role,
                       requestedModel: Id, deadlines: DeadlinePlan, delegate: Id)
    returns (t: BudgetedTransport?, reply: Reply)
    requires budget.store == world.store && budget.Valid() && world.Valid() && deadlines.Valid()
    modifies budget`active, world`caps, world`turns, world.store
    ensures budget.Valid() && world.Valid() && world.Did(budget, Op.Begin(observation, fenceId), reply)
    ensures t == null <==> reply.Err?
    ensures t != null ==> fresh(t) && t.Valid() && t.budget == budget && t.world == world
    ensures t != null ==>
      && t.observation == observation && t.role == role
      && t.requestedModel == requestedModel && t.deadlines == deadlines
      && t.Intact() && t.armed == None && t.roleDeadline == None && t.requests == []
      && !t.entered && !t.stopped && t.acceptance == None
    ensures t != null ==> !world.store.db.stopped && IsOpen(world.store.db.fences, observation)
    ensures t != null ==> Holds(world.store.db.fences, budget.active, observation)
  {
    hide Inv, Evolves, SysInv;
    t := null;
    reply := world.Begin(budget, observation, fenceId);
    if reply.Ok? {
      t := new BudgetedTransport(budget, world, observation, role, requestedModel, deadlines, delegate);
    }
  }

  // ---- The deadline of the attempt that was sent ----

  /** Every sample the transport would accept lies before the deadline of its first request, the only one it can send,
      exactly when no later request moved that deadline or the role ends first. */
  lemma FirstDeadlineKept(t: BudgetedTransport)
    requires t.Valid() && t.requests != [] && t.roleDeadline.Some?
    ensures (forall now: real | t.Expired(now).None? :: now < t.requests[0] + t.deadlines.attempt) <==>
      || t.requests[|t.requests| - 1] == t.requests[0]
      || t.roleDeadline.value <= t.requests[0] + t.deadlines.attempt
  {
    var first := t.requests[0] + t.deadlines.attempt;
    assert t.requests[0] <= t.requests[|t.requests| - 1];
    if first < t.attemptDeadline.value && first < t.roleDeadline.value {
      assert t.Expired(first).None?;
    }
  }

  /** So a published acceptance keeps the deadline of the attempt it accepts in those cases. */
  lemma AcceptedInOwnTime(t: BudgetedTransport)
    requires t.Valid() && t.acceptance.Some?
    ensures t.requests != [] && t.roleDeadline.Some?
    ensures
      || t.requests[|t.requests| - 1] == t.requests[0]
      || t.roleDeadline.value <= t.requests[0] + t.deadlines.attempt ==>
      t.acceptance.value < t.requests[0] + t.deadlines.attempt
  {
  }

  /** A ledger in which one observation was just opened admits its first attempt. */
  lemma OpenedAdmits(limits: Limits, o: Id, f: Id, r: Reservation)
    requires limits.Valid() && limits.For(r.role) > 0 && r.observation == o && r.retry == 0 && r.retryReason.None?
    ensures BeginTxn(Create(limits), None, o, f).Commit?
    ensures var db := BeginTxn(Create(limits), None, o, f).db;
      ReserveTxn(db, Some(Capability(o, f)), r).Commit? && AssertActiveTxn(db, Some(Capability(o, f)), o).Commit?
  {
  }

  const PLAN := DeadlinePlan(1.0, 2.0, 4.0, 12.0)

  /** A world in which nobody else acts, every commit is acknowledged, and the clock reads 0.0 for twelve samples,
      0.9 for one, and 1.5 from then on. */
  ghost predicate Scripted(w: World) {
    && (forall k: nat :: w.others(k) == [] && w.fates(k) == Acknowledged)
    && (forall k: nat :: w.clock(k) == if k <= 11 then 0.0 else if k == 12 then 0.9 else 1.5)
  }

  method OpenScripted(o: Id, fenceId: Id, model: Id, delegate: Id, r: Reservation) returns (t: BudgetedTransport)
    requires r.observation == o && r.role == Planner && r.retry == 0 && r.retryReason.None?
    ensures fresh(t) && fresh(t.world) && fresh(t.world.store) && t.Valid() && Scripted(t.world)
    ensures t.observation == o && t.role == Planner && t.requestedModel == model && t.deadlines == PLAN
    ensures t.Intact() && t.armed == None && t.roleDeadline == None && t.requests == [] && !t.entered && !t.stopped
    ensures t.acceptance == None && t.world.turns == 1 && t.world.ticks == 0
    ensures Admissible(t.world.store.db, t.budget.active, r)
  {
    hide ReserveTxn, AssertActiveTxn, BeginTxn, Inv, Evolves, SysInv, Create;
    var limits := Limits(1, 1, 1);
    OpenedAdmits(limits, o, fenceId, r);
    var world, budget := NewScripted(limits);
    var opening, reply := OpenTransport(budget, world, o, fenceId, Planner, model, PLAN, delegate);
    assert Exec(Create(limits), None, Op.Begin(o, fenceId)) == BeginTxn(Create(limits), None, o, fenceId);
    assert reply == Ok && world.store.db == BeginTxn(Create(limits), None, o, fenceId).db;
    t := opening;
  }

  method NewScripted(limits: Limits) returns (world: World, budget: AttemptBudget)
    requires limits.Valid()
    ensures fresh(world) && fresh(world.store) && fresh(budget) && budget.store == world.store
    ensures world.Valid() && budget.Valid() && Scripted(world) && budget.active.None?
    ensures world.turns == 0 && world.ticks == 0 && world.Met() == System(Create(limits), map[])
  {
    hide Inv, Evolves, SysInv;
    var store := new Store(limits);
    var clock: nat -> real := n => if n <= 11 then 0.0 else if n == 12 then 0.9 else 1.5;
    world := new World(store, clock, _ => Acknowledged, _ => []);
    budget := new AttemptBudget(store);
  }

  /** The case in which it does not: a provider whose request was sent at 0.0 asks again at 0.9 and is refused, and at
      1.5 its response is accepted, half a second after the deadline of the only attempt there is. */
  method AcceptedAfterItsDeadline(o: Id, fenceId: Id, model: Id, delegate: Id, payload: Id, schemaDigest: Id,
                                  prompt: Id, body: Id, attemptId: Id, correlationId: Id, again: Exchange)
    returns (t: BudgetedTransport, sent: Result, reissued: Result, failure: Option<Failure>)
    ensures fresh(t) && t.Valid() && t.deadlines == PLAN && Scripted(t.world)
    ensures sent == Returned && reissued == Raised(Bounded("REISSUE_OR_STOPPED_TRANSPORT")) && failure == None
    ensures t.requests == [0.0, 0.9] && |t.delegations| == 1 && t.delegations[0].r.attemptId == attemptId
    ensures t.acceptance == Some(1.5) && !(1.5 < t.requests[0] + t.deadlines.attempt)
  {
    hide Inv, Evolves, SysInv, InOrder, Admissible;
    var r := Reservation(attemptId, correlationId, o, Planner, model, body, prompt, schemaDigest, 0, None);
    t := OpenScripted(o, fenceId, model, delegate, r);
    var none := t.Arm(payload, schemaDigest);
    var x := Exchange(true, Some(payload), model, body, prompt, Response(200, Body(1, Some(model))));
    sent := SendScripted(t, x, r);
    assert Scripted(t.world);
    reissued := t.HandleAsyncRequest(again, attemptId, correlationId);
    assert t.world.clock(12) == 0.9;
    assert t.requests == [0.0, 0.9];
    failure := AcceptScripted(t);
  }

  /** The first request, with all its samples at 0.0. */
  method SendScripted(t: BudgetedTransport, x: Exchange, r: Reservation) returns (sent: Result)
    requires t.Valid() && Scripted(t.world) && t.deadlines == PLAN && t.Ready(x)
            && GoodDelivery(x.delivery, t.requestedModel)
    requires t.roleDeadline == None && t.requests == [] && t.world.ticks == 0 && t.acceptance == None
    requires Admissible(t.world.store.db, t.budget.active, r) && r == t.ReservationOf(x, r.attemptId, r.correlationId)
    modifies t, t.world`caps, t.world`turns, t.world`ticks, t.world`latest, t.world`mark, t.world.store
    ensures t.Valid() && sent == Returned && t.Spent() && t.responseObserved && t.acceptance == None
    ensures t.requests == [0.0] && t.roleDeadline == Some(2.0) && t.world.ticks == 12 && !t.world.store.db.stopped
    ensures |t.delegations| == 1 && t.delegations[0].r.attemptId == r.attemptId
  {
    hide Inv, Evolves, SysInv, InOrder, Admissible;
    assert t.world.clock(0) == 0.0 && t.world.clock(11) == 0.0 && t.world.Calm(t.world.turns, 5);
    sent := t.HandleAsyncRequest(x, r.attemptId, r.correlationId);
  }

  /** The acceptance at 1.5 under the deadline of the refused request. */
  method AcceptScripted(t: BudgetedTransport) returns (failure: Option<Failure>)
    requires t.Valid() && Scripted(t.world) && t.deadlines == PLAN && t.Spent() && t.responseObserved
    requires t.requests == [0.0, 0.9] && t.roleDeadline == Some(2.0) && t.world.ticks == 13 && !t.world.store.db.stopped
    modifies t`events, t`acceptance, t`accepted
    modifies t.world`caps, t.world`turns, t.world`ticks, t.world`latest, t.world`mark, t.world.store
    ensures t.Valid() && failure == None && t.acceptance == Some(1.5)
  {
    hide Inv, Evolves, SysInv;
    assert t.world.clock(15) == 1.5;
    assert t.attemptDeadline == Some(0.9 + 1.0);
    assert t.world.Met() == System(t.world.store.db, t.world.caps);
    failure := t.AcceptRole();
  }
}
