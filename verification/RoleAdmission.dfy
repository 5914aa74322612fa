/** AdmittedRoleTransport: the transport of the composed evaluation, a BudgetedTransport
    behind a delegate that is configured for one request and whose response facts must
    be admitted before the role is. */
module RoleAdmission {
  import opened Options
  import opened Ledger
  import opened LedgerInvariant
  import opened LedgerRuns
  import opened AttemptBudgetController
  import opened EvaluationWorld
  import opened BoundedProvider

  /** One request of the provider; contextBound says whether the binding of its context was acknowledged in time. */
  datatype Call = Call(exchange: Exchange, attemptId: Id, correlationId: Id, contextBound: bool)

  /** One use of the transport: what the provider asks of it, how the provider then ends, and whether the facts of the
      response were acknowledged and passed. */
  datatype Proposal = Proposal(
    payload: Id, schema: Id, calls: seq<Call>, provider: Option<Failure>, contractPasses: bool)

  /** The one attempt that p asks for. */
  function FirstAttempt(p: Proposal, observation: Id, role: Role, model: Id): Reservation
    requires |p.calls| == 1
  {
    var c := p.calls[0];
    Reservation(c.attemptId, c.correlationId, observation, role, model, c.exchange.request, c.exchange.prompt, p.schema,
                0, None)
  }

  /** A provider that asks once, with what was armed, and gets a good answer. */
  predicate WellBehaved(p: Proposal, model: Id) {
    && |p.calls| == 1 && p.provider.None? && p.contractPasses
    && var c := p.calls[0];
    && c.contextBound && c.exchange.endpointMatches && c.exchange.payload == Some(p.payload)
    && c.exchange.model == model && GoodDelivery(c.exchange.delivery, model)
  }

  class AdmittedRoleTransport {
    const base: BudgetedTransport
    var configured: bool                  // the delegate has its wire

    ghost predicate Valid()
      reads this, base, base.budget, base.world, base.world.store
    {
      base.Valid() && OneRequest()
    }

    /** Exactly the request the delegate was configured for reached the bounded transport. */
    ghost predicate OneRequest()
      reads this, base`requests
    {
      |base.requests| == if configured then 1 else 0
    }

    constructor (base: BudgetedTransport)
      requires base.Valid() && base.requests == []
      ensures Valid() && this.base == base && !configured
    {
      this.base, configured := base, false;
    }

    /** handle_async_request: any failure after the identity and arming checks stops the run, also a refused reissue. */
    method HandleAsyncRequest(c: Call) returns (result: Result)
      requires Valid() && base.world.Excludes(c.attemptId)
      modifies this`configured, base
      modifies base.world`caps, base.world`turns, base.world`ticks, base.world`latest, base.world`mark, base.world.store
      ensures Valid() && old(base.events) <= base.events
      ensures result.Returned? ==>
        && !old(configured) && configured && !base.stopped
        && c.contextBound && old(base.Ready(c.exchange)) && GoodDelivery(c.exchange.delivery, base.requestedModel)
        && base.custody.Some? && base.custody.value.attemptId == c.attemptId
        && Delivered(base.world.store.db, base.custody.value)
      ensures result.Returned? ==>
        Sent(old(base.events), old(base.roleDeadline), old(base.world.turns), old(base.world.ticks))
      ensures base.world.Calm(old(base.world.turns), 5) && old(Admits(c)) ==>
        && result.Returned?
        && base.world.store.db == AnsweredLedger(old(base.world.store.db), base.budget.active, old(AttemptOf(c)))
      ensures result.Raised? ==>
        || (base.stopped && StopAttempted(base.events, |old(base.events)|))
        || (result == Raised(Bounded("UNARMED_REQUEST")) && old(base.schema).None?
            && unchanged(base) && unchanged(this))
      ensures old(base.schema).None? && old(base.Intact()) ==>
        result == Raised(Bounded("UNARMED_REQUEST")) && unchanged(base)
      // Past those checks a failure is the one below, unless its stop was not recorded.
      ensures result.Raised? && old(base.schema).Some? && old(base.Intact()) ==>
        && |base.events| > |old(base.events)| && base.events[|base.events| - 1].StopEvent?
        && base.events[|base.events| - 1].reason == "ROLE_ADMISSION_OR_RESPONSE_FAILED"
        && (!base.events[|base.events| - 1].persisted ==> result == Raised(Bounded("BUDGET_CUSTODY_UNAVAILABLE")))
    {
      hide Inv, Evolves, SysInv, World.Valid, BudgetedTransport.Valid, InOrder, AttemptEnd;
      hide Admissible, World.Calm, Delivered, Unacknowledged;
      hide BudgetedTransport.Ready, GoodDelivery, BudgetedTransport.Expired;
      if Admits(c) { AdmittedIsArmed(c); }
      var failure := base.Integrity();
      if failure.Some? {
        return Raised(failure.value);
      }
      if base.schema.None? {
        return Raised(Bounded("UNARMED_REQUEST"));
      }
      result := Attempt(c);
      if result.Raised? {
        ghost var es := base.events;
        result := StopAfter(result);
        MoreEvents(es, base.events, |old(base.events)|);
      }
    }

    /** The except clause around an attempt. */
    method StopAfter(cause: Result) returns (result: Result)
      requires Valid() && cause.Raised?
      modifies base`stopped, base`acceptance, base`events, base.world`caps, base.world`turns, base.world.store
      ensures Valid() && base.stopped && result.Raised? && old(base.events) <= base.events
      ensures StopAttempted(base.events, |old(base.events)|)
      ensures |base.events| > |old(base.events)| && base.events[|base.events| - 1].StopEvent?
      ensures base.events[|base.events| - 1].reason == "ROLE_ADMISSION_OR_RESPONSE_FAILED"
      ensures result == if base.events[|base.events| - 1].persisted then cause
                        else Raised(Bounded("BUDGET_CUSTODY_UNAVAILABLE"))
    {
      hide Inv, Evolves, SysInv, World.Valid, BudgetedTransport.Valid, InOrder, AttemptEnd;
      var f := base.StopKeepingValid("ROLE_ADMISSION_OR_RESPONSE_FAILED");
      result := if f == Bounded("ROLE_ADMISSION_OR_RESPONSE_FAILED") then cause else Raised(f);
    }

    /** Everything the call needs of its caller, the ledger and the delegate. */
    ghost predicate Admits(c: Call)
      reads this, base, base.budget, base.world, base.world.store
    {
      && !configured && c.contextBound && base.Ready(c.exchange)
      && GoodDelivery(c.exchange.delivery, base.requestedModel)
      && base.Expired(base.world.clock(base.world.ticks)).None? && Unhurried(base.world.ticks)
      && Admissible(base.world.store.db, base.budget.active, AttemptOf(c))
    }

    /** The twelve samples of a request from tick n on leave time. */
    ghost predicate Unhurried(n: nat)
      reads base`roleDeadline
    {
      && base.world.clock(n + 12) < base.world.clock(n + 1) + base.deadlines.attempt
      && (base.roleDeadline.Some? ==> base.world.clock(n + 12) < base.roleDeadline.value)
    }

    twostate lemma InOwnTime(n: nat)
      requires base.Valid() && old(Unhurried(n))
      requires base.TookDeadlines(old(base.requests), old(base.roleDeadline), n + 1)
      ensures base.Expired(base.world.clock(n + 12)).None?
    {
    }

    ghost function AttemptOf(c: Call): Reservation
      reads base
    {
      base.ReservationOf(c.exchange, c.attemptId, c.correlationId)
    }

    /** What a request that returned did to the transport, from this event log, role deadline, turn and tick on. */
    ghost predicate Sent(events: seq<TransportEvent>, roleEnd: Option<real>, turn: nat, tick: nat)
      reads base, base.world
    {
      && base.events == events + [CustodyAck(ResponseObserved)] && base.responseObserved && base.entered
      && base.world.turns == turn + 5 && base.world.ticks == tick + 13
      && base.attemptDeadline == Some(base.world.clock(tick + 1) + base.deadlines.attempt)
      && (roleEnd.Some? ==> base.roleDeadline == roleEnd)
    }

    lemma AdmittedIsArmed(c: Call)
      requires Valid() && Admits(c)
      ensures base.schema.Some? && base.Intact()
    {
    }

    /** The request context, the wire of the delegate, and the bounded transport below. */
    method Attempt(c: Call) returns (result: Result)
      requires Valid() && base.world.Excludes(c.attemptId)
      modifies this`configured, base
      modifies base.world`caps, base.world`turns, base.world`ticks, base.world`latest, base.world`mark, base.world.store
      ensures Valid() && old(base.events) <= base.events
      ensures result.Returned? ==>
        && !old(configured) && configured && !base.stopped
        && c.contextBound && old(base.Ready(c.exchange)) && GoodDelivery(c.exchange.delivery, base.requestedModel)
        && base.custody.Some? && base.custody.value.attemptId == c.attemptId
        && Delivered(base.world.store.db, base.custody.value)
      ensures result.Returned? ==>
        Sent(old(base.events), old(base.roleDeadline), old(base.world.turns), old(base.world.ticks))
      ensures base.world.Calm(old(base.world.turns), 5) && old(Admits(c)) ==>
        && result.Returned?
        && base.world.store.db == AnsweredLedger(old(base.world.store.db), base.budget.active, old(AttemptOf(c)))
    {
      hide Inv, Evolves, SysInv, World.Valid, BudgetedTransport.Valid, InOrder, AttemptEnd;
      hide Admissible, World.Calm, World.Acked, Delivered, StopAttempted, Unacknowledged, Bound;
      hide BudgetedTransport.Ready, GoodDelivery, BudgetedTransport.Expired;
      hide BudgetedTransport.Spent;
      if !c.contextBound {
        return Raised(OtherFailure);
      }
      var failure := base.GuardKeepingValid("REQUEST_CONTEXT_ACK");
      if failure.Some? {
        return Raised(failure.value);
      }
      if configured {
        return Raised(Bounded("DUPLICATE_DELEGATE_CONFIGURATION"));
      }
      configured := true;
      ghost var n := base.world.ticks - 1;
      result := base.HandleAsyncRequest(c.exchange, c.attemptId, c.correlationId);
      if old(Admits(c)) { InOwnTime(n); }
    }

    /** accept_role: the response contract first. */
    method AcceptRole(contractPasses: bool) returns (failure: Option<Failure>)
      requires Valid()
      modifies base`events, base`stopped, base`acceptance, base`accepted
      modifies base.world`caps, base.world`turns, base.world`ticks, base.world`latest, base.world`mark, base.world.store
      ensures Valid() && old(base.events) <= base.events
      ensures failure.None? ==> base.acceptance == Some(base.world.clock(old(base.world.ticks) + 2))
      ensures failure.None? ==>
        && base.events == old(base.events) + [RoleAccepted(base.acceptance.value)]
        && base.world.store.db == old(base.world.Met()).db && base.world.turns == old(base.world.turns) + 1
      ensures !contractPasses ==>
        && base.stopped && base.acceptance.None? && |base.events| == |old(base.events)| + 1
        && base.events[|old(base.events)|].StopEvent?
        && base.events[|old(base.events)|].reason == "RESPONSE_CONTRACT_NOT_ADMITTED"
      ensures failure.None? <==>
        && contractPasses && old(base.responseObserved && base.entered && !base.stopped)
        && base.world.Acked(old(base.world.turns), 1) && !old(base.world.Met()).db.stopped
        && base.Expired(base.world.clock(old(base.world.ticks) + 2)).None?
    {
      hide Inv, Evolves, SysInv, World.Valid, BudgetedTransport.Valid, InOrder, AttemptEnd;
      if !contractPasses {
        var f := base.StopKeepingValid("RESPONSE_CONTRACT_NOT_ADMITTED");
        return Some(f);
      }
      failure := base.AcceptRole();
    }

    ghost function Wanted(p: Proposal): Reservation
      requires |p.calls| == 1
    {
      FirstAttempt(p, base.observation, base.role, base.requestedModel)
    }

    /** A transport that was never used. */
    ghost predicate Fresh()
      reads this, base
    {
      && !configured && !base.stopped && !base.entered && base.Intact()
      && base.armed.None? && base.roleDeadline.None? && base.acceptance.None?
    }

    /** The samples from tick n on all come within one attempt of the n-th. */
    ghost predicate Swift(n: nat, count: nat) {
      base.world.clock(n + count) < base.world.clock(n) + base.deadlines.attempt
    }

    /** The role began at tick n, and no request has made its deadline earlier than an attempt from there. */
    ghost predicate Timely(n: nat)
      reads base
    {
      && base.roleDeadline == Some(base.world.clock(n) + base.deadlines.role)
      && (base.attemptDeadline.Some? ==> base.attemptDeadline.value >= base.world.clock(n) + base.deadlines.attempt)
    }

    lemma SwiftInTime(n: nat, k: nat, count: nat)
      requires base.Valid() && Timely(n) && Swift(n, count) && k <= count
      ensures base.Expired(base.world.clock(n + k)).None?
    {
      assert base.world.clock(n + k) <= base.world.clock(n + count);
    }

    lemma LaterRequest(n: nat, k: nat)
      requires base.Valid()
      ensures base.world.clock(n) <= base.world.clock(n + k)
    {
    }

    /** Everything that an accepted role needs. */
    ghost predicate Expects(p: Proposal)
      reads this, base, base.budget, base.world, base.world.store
    {
      && Fresh() && WellBehaved(p, base.requestedModel) && Swift(base.world.ticks, 18)
      && Admissible(base.world.store.db, base.budget.active, Wanted(p))
    }

    /** propose / assess over this transport. Undisturbed, a well-behaved provider is always accepted. */
    method PerformRole(p: Proposal) returns (failure: Option<Failure>)
      requires Valid() && forall c | c in p.calls :: base.world.Excludes(c.attemptId)
      modifies this`configured, base
      modifies base.world`caps, base.world`turns, base.world`ticks, base.world`latest, base.world`mark, base.world.store
      ensures Valid() && old(base.events) <= base.events
      ensures failure.None? ==> base.acceptance.Some? && p.contractPasses && p.provider.None?
      ensures failure.Some? ==> failure.value.Bounded? || failure.value.Cancelled?
      ensures old(base.roleDeadline).Some? ==>
        && failure.Some? && base.requests == old(base.requests) && |base.events| == |old(base.events)| + 1
        && base.events[|old(base.events)|].StopEvent?
        && base.events[|old(base.events)|].reason == "DUPLICATE_LOGICAL_PROVIDER_CALL"
      ensures failure.Some? ==> base.stopped && StopAttempted(base.events, |old(base.events)|)
      ensures base.world.Calm(old(base.world.turns), 6) && old(Expects(p)) ==>
        && failure.None? && Accepted(old(base.events)) && base.world.turns == old(base.world.turns) + 6
        && base.world.store.db == AnsweredLedger(old(base.world.store.db), base.budget.active, Wanted(p))
    {
      hide Inv, Evolves, SysInv, World.Valid, BudgetedTransport.Valid, InOrder, AttemptEnd;
      hide WellBehaved, Admissible, AnsweredLedger, World.Calm, StopAttempted, Swift;
      failure := base.BeginRole();
      if failure.Some? {
        return;
      }
      NoRequestYet();
      failure := RoleBody(p, old(base.world.ticks));
      if failure.Some? {
        ghost var es := base.events;
        var raised := base.FailRole(failure.value);
        MoreEvents(es, base.events, |old(base.events)|);
        failure := Some(raised);
      }
    }

    lemma NoRequestYet()
      requires Valid()
      ensures !configured ==> base.attemptDeadline.None?
    {
    }

    /** The whole log of an accepted role. */
    ghost predicate Accepted(events: seq<TransportEvent>)
      reads base
    {
      && base.acceptance.Some?
      && base.events == events + [CustodyAck(ResponseObserved), RoleAccepted(base.acceptance.value)]
    }

    /** Armed for p, with its role begun at tick n. */
    ghost predicate Begun(p: Proposal, n: nat)
      reads this, base, base.world
    {
      && !configured && !base.stopped && !base.entered && base.Intact() && base.armed.None?
      && Timely(n) && base.attemptDeadline.None? && base.world.ticks == n + 1
      && WellBehaved(p, base.requestedModel) && Swift(n, 18)
    }

    lemma ReadyAdmits(p: Proposal, n: nat)
      requires Valid() && !configured && !base.stopped && !base.entered && base.Intact()
      requires base.armed == Some(p.payload) && base.schema == Some(p.schema)
      requires Timely(n) && base.attemptDeadline.None? && base.world.ticks == n + 3
              && WellBehaved(p, base.requestedModel) && Swift(n, 18)
      requires Admissible(base.world.store.db, base.budget.active, Wanted(p))
      ensures Admits(p.calls[0]) && AttemptOf(p.calls[0]) == Wanted(p)
    {
      hide Admissible;
      SwiftInTime(n, 3, 18);
      LaterRequest(n, 4);
      Within(n, 15, 18);
    }

    lemma Within(n: nat, k: nat, count: nat)
      requires base.Valid() && Swift(n, count) && k <= count
      ensures Swift(n, k) && base.deadlines.attempt < base.deadlines.role
    {
      assert base.world.clock(n + k) <= base.world.clock(n + count);
    }

    lemma AnswersInTime(n: nat)
      requires base.Valid() && Swift(n, 18) && base.roleDeadline == Some(base.world.clock(n) + base.deadlines.role)
      requires base.attemptDeadline == Some(base.world.clock(n + 4) + base.deadlines.attempt)
      ensures base.Expired(base.world.clock(n + 18)).None?
    {
      LaterRequest(n, 4);
      SwiftInTime(n, 18, 18);
    }

    method RoleBody(p: Proposal, ghost n: nat) returns (failure: Option<Failure>)
      requires Valid() && forall c | c in p.calls :: base.world.Excludes(c.attemptId)
      modifies this`configured, base
      modifies base.world`caps, base.world`turns, base.world`ticks, base.world`latest, base.world`mark, base.world.store
      ensures Valid() && old(base.events) <= base.events
      ensures failure.None? ==> base.acceptance.Some? && p.contractPasses && p.provider.None?
      ensures
        var ready := old(base.Intact()) && !old(base.entered) && old(base.armed).None?
          && old(base.Expired(base.world.clock(base.world.ticks))).None?;
        !ready ==> failure.Some? && base.requests == old(base.requests)
      ensures base.world.Calm(old(base.world.turns), 6) && old(Begun(p, n))
              && Admissible(old(base.world.store.db), base.budget.active, Wanted(p)) ==>
        && failure.None? && Accepted(old(base.events)) && base.world.turns == old(base.world.turns) + 6
        && base.world.store.db == AnsweredLedger(old(base.world.store.db), base.budget.active, Wanted(p))
    {
      hide Inv, Evolves, SysInv, World.Valid, BudgetedTransport.Valid, InOrder, AttemptEnd;
      hide Admissible, AnsweredLedger, World.Calm, StopAttempted, Swift, World.Acked, BudgetedTransport.Expired;
      ghost var good := base.world.Calm(base.world.turns, 6) && Begun(p, n)
        && Admissible(base.world.store.db, base.budget.active, Wanted(p));
      if good { SwiftInTime(n, 1, 18); }
      failure := base.ReadyRole(p.payload, p.schema);
      if failure.Some? {
        return;
      }
      failure := ReadyBody(p, n);
    }

    /** The role once it is armed. */
    method ReadyBody(p: Proposal, ghost n: nat) returns (failure: Option<Failure>)
      requires Valid() && forall c | c in p.calls :: base.world.Excludes(c.attemptId)
      modifies this`configured, base
      modifies base.world`caps, base.world`turns, base.world`ticks, base.world`latest, base.world`mark, base.world.store
      ensures Valid() && old(base.events) <= base.events
      ensures failure.None? ==> base.acceptance.Some? && p.contractPasses && p.provider.None?
      ensures base.world.Calm(old(base.world.turns), 6) && old(ArmedFor(p, n))
              && Admissible(old(base.world.store.db), base.budget.active, Wanted(p)) ==>
        && failure.None? && Accepted(old(base.events)) && base.world.turns == old(base.world.turns) + 6
        && base.world.store.db == AnsweredLedger(old(base.world.store.db), base.budget.active, Wanted(p))
    {
      hide Inv, Evolves, SysInv, World.Valid, BudgetedTransport.Valid, InOrder, AttemptEnd;
      hide Admissible, AnsweredLedger, World.Calm, StopAttempted, Swift, GoodDelivery, BudgetedTransport.Expired;
      ghost var good := base.world.Calm(base.world.turns, 6) && ArmedFor(p, n)
        && Admissible(base.world.store.db, base.budget.active, Wanted(p));
      if good {
        base.world.CalmWithin(base.world.turns, 6, 0, 5);
        base.world.CalmWithin(base.world.turns, 6, 5, 1);
        ReadyAdmits(p, n);
      }
      ProviderCalls(p.calls);
      if p.provider.Some? {
        return p.provider;
      }
      ghost var es := base.events;
      if good { AnswersInTime(n); }
      failure := AcceptRole(p.contractPasses);
      if good { assert base.events == es + [RoleAccepted(base.acceptance.value)]; }
    }

    /** Armed for p and nothing sent, with its role begun at tick n. */
    ghost predicate ArmedFor(p: Proposal, n: nat)
      reads this, base, base.world
    {
      && !configured && !base.stopped && !base.entered && base.Intact()
      && base.armed == Some(p.payload) && base.schema == Some(p.schema)
      && Timely(n) && base.attemptDeadline.None? && base.world.ticks == n + 3
      && WellBehaved(p, base.requestedModel) && Swift(n, 18)
    }

    method ProviderCalls(calls: seq<Call>)
      requires Valid() && forall c | c in calls :: base.world.Excludes(c.attemptId)
      modifies this`configured, base
      modifies base.world`caps, base.world`turns, base.world`ticks, base.world`latest, base.world`mark, base.world.store
      ensures Valid() && old(base.events) <= base.events
      ensures |calls| == 1 && base.world.Calm(old(base.world.turns), 5) && old(Admits(calls[0])) ==>
        && Sent(old(base.events), old(base.roleDeadline), old(base.world.turns), old(base.world.ticks)) && !base.stopped
        && base.world.store.db == AnsweredLedger(old(base.world.store.db), base.budget.active, old(AttemptOf(calls[0])))
    {
      hide Inv, Evolves, SysInv, World.Valid, BudgetedTransport.Valid, InOrder, AttemptEnd;
      hide Admissible, AnsweredLedger, World.Calm, StopAttempted, Sent, Delivered, AttemptOf, Unhurried;
      hide BudgetedTransport.Ready, GoodDelivery, BudgetedTransport.Expired;
      for i := 0 to |calls|
        invariant Valid() && old(base.events) <= base.events
        invariant i == 0 ==> unchanged(this) && unchanged(base) && unchanged(base.world) && unchanged(base.world.store)
        invariant i == 1 && base.world.Calm(old(base.world.turns), 5) && old(Admits(calls[0])) ==>
          && !base.stopped
          && Sent(old(base.events), old(base.roleDeadline), old(base.world.turns), old(base.world.ticks))
          && base.world.store.db
             == AnsweredLedger(old(base.world.store.db), base.budget.active, old(AttemptOf(calls[0])))
      {
        assert calls[i] in calls;
        var _ := HandleAsyncRequest(calls[i]);
      }
    }
  }

  /** In the composed evaluation no reissue can move a deadline: what is accepted kept the deadlines of the one request
      that was ever made, its own attempt's and the role's. */
  lemma AcceptedOnTime(t: AdmittedRoleTransport)
    requires t.Valid() && t.base.acceptance.Some?
    ensures t.configured && |t.base.requests| == 1 && t.base.roleDeadline.Some?
    ensures t.base.acceptance.value < t.base.requests[0] + t.base.deadlines.attempt
    ensures t.base.acceptance.value < t.base.roleDeadline.value
  {
    AcceptedInOwnTime(t.base);
  }
}
