/** The controller object of one process: it attaches to a shared durable store
    and keeps one local capability.  Every method is proved to be exactly the
    ledger transaction of the same name, settled by the fate of the store. */
module AttemptBudgetController {
  import opened Options
  import opened Ledger
  import opened LedgerInvariant
  import opened LedgerRuns

  /** The SQLite file: one serialised durable value shared by all controllers. */
  class Store {
    var db: Ledger

    constructor (limits: Limits)
      requires limits.Valid()
      ensures db == Create(limits) && Inv(db)
    {
      InitialInv(limits);
      db := Create(limits);
    }

    /** BEGIN IMMEDIATE ... commit.  A failed commit leaves the old rows. */
    method Persist(db': Ledger, fate: Fate)
      modifies this
      ensures db == if fate == NotCommitted then old(db) else db'
    {
      if fate != NotCommitted {
        db := db';
      }
    }
  }

  class AttemptBudget {
    const store: Store
    var active: Option<Capability>

    ghost predicate Valid()
      reads this, store
    {
      Inv(store.db) && (active.Some? ==> Holds(store.db.fences, active, active.value.observation))
    }

    /** The call acted as the ledger operation op, seen with this fate. */
    twostate predicate Took(op: Op, fate: Fate, reply: Reply)
      reads this, store
    {
      && Settle(old(store.db), Exec(old(store.db), old(active), op), fate) == (store.db, reply)
      && active == (if reply.Ok? then CapAfter(old(active), op) else old(active))
    }

    /** Attaching to an existing run never recreates a capability. */
    constructor (store: Store)
      requires Inv(store.db)
      ensures this.store == store && active == None && Valid()
    {
      this.store := store;
      active := None;
    }

    method AssertFenceAccess(db: Ledger, o: Id) returns (e: Option<Error>)
      requires FencesSound(db.fences)
      ensures e == FenceError(db, active, o)
    {
      var unseen := set x | x in db.fences && IsOpen(db.fences, x);
      while unseen != {}
        invariant unseen <= set x | x in db.fences && IsOpen(db.fences, x)
        invariant forall x | IsOpen(db.fences, x) && x !in unseen :: Holds(db.fences, active, x) && x == o
      {
        var x :| x in unseen;
        if !Holds(db.fences, active, x) {
          return Some(UnresolvedFence);
        }
        if o != x {
          return Some(OtherFenceActive);
        }
        unseen := unseen - {x};
      }
      e := None;
    }

    /** Counts a new observation in the working copy, or reports exhaustion. */
    method CountObservation(db: Ledger, o: Id) returns (exhausted: bool, db': Ledger)
      ensures exhausted <==> ReserveObservation(db, o).None?
      ensures !exhausted ==> db' == ReserveObservation(db, o).value
    {
      db' := db;
      if o in db.observations {
        return false, db';
      }
      if |db.observations| >= db.limits.observations {
        return true, db';
      }
      db' := db.(observations := db.observations + {o});
      exhausted := false;
    }

    /** One row per slot, and a retry only after a known, identical first attempt. */
    method CheckPrior(db: Ledger, r: Reservation) returns (e: Option<Error>)
      ensures e == PriorError(db, r)
    {
      var prior := Prior(db, r);
      if exists p | p in prior :: db.attempts[p].reservation.retry == r.retry {
        return Some(DuplicateAttempt);
      }
      if r.retry != 0 {
        if |prior| != 1 || exists p | p in prior :: !KnownCompletion(db.attempts[p]) {
          return Some(RetryWithoutKnownCompletion);
        }
        if exists p | p in prior :: !SameIdentity(db.attempts[p].reservation, r) {
          return Some(RetryIdentityMismatch);
        }
      }
      e := None;
    }

    /** Without an observation it asks about the one this controller holds. */
    method AssertActiveObservation(o: Option<Id>, fate: Fate) returns (reply: Reply)
      requires Valid()
      ensures Valid()
      ensures o.Some? ==> Took(AssertActive(o.value), fate, reply)
      ensures o.None? && active.Some? ==> Took(AssertActive(active.value.observation), fate, reply)
      ensures o.None? && active.None? ==> reply == Err(CapabilityRequired)
      ensures reply.Ok? ==> active.Some? && !store.db.stopped && IsOpen(store.db.fences, active.value.observation)
    {
      if o.None? && active.None? {
        return Err(CapabilityRequired);
      }
      var asked := if o.Some? then o.value else active.value.observation;
      var db := store.db;
      if db.stopped {
        return Refusal(RunStopped, fate);
      }
      var e := AssertFenceAccess(db, asked);
      if e.Some? {
        return Refusal(e.value, fate);
      }
      if !(IsOpen(db.fences, asked) && Holds(db.fences, active, asked)) {
        return Refusal(CapabilityRequired, fate);
      }
      reply := if fate == Acknowledged then Ok else Err(Unavailable);
    }

    method BeginObservation(o: Id, fenceId: Id, fate: Fate) returns (reply: Reply)
      requires Valid()
      modifies this`active, store
      ensures Took(Begin(o, fenceId), fate, reply) && Valid() && Evolves(old(store.db), store.db)
    {
      ExecGood(store.db, active, Begin(o, fenceId));
      assert Exec(store.db, active, Begin(o, fenceId)) == BeginTxn(store.db, active, o, fenceId);
      if active.Some? {
        if active.value.observation != o {
          return Err(OtherFenceActive);
        }
        reply := AssertActiveObservation(Some(o), fate);
        return;
      }
      hide Inv, Evolves, BeginError, OpenTxn, Exec;
      var e := CheckBegin(o);
      if e.Some? {
        return Refusal(e.value, fate);
      }
      reply := OpenFence(o, fenceId, fate);
      // The local capability is granted only after the commit returned.
      if reply.Ok? {
        OpenedIsHeld(old(store.db), o, fenceId);
        active := Some(Capability(o, fenceId));
      }
    }

    lemma OpenedIsHeld(db: Ledger, o: Id, fenceId: Id)
      ensures OpenTxn(db, o, fenceId).Commit? ==>
        Holds(OpenTxn(db, o, fenceId).db.fences, Some(Capability(o, fenceId)), o)
    {
    }

    /** The refusals that precede the observation budget. */
    method CheckBegin(o: Id) returns (e: Option<Error>)
      requires Valid() && active.None?
      ensures e == BeginError(store.db, o)
    {
      hide FenceError;
      var db := store.db;
      if db.stopped {
        return Some(RunStopped);
      }
      e := AssertFenceAccess(db, o);
      if e.Some? {
        return;
      }
      if AnyPending(db) {
        return Some(UnresolvedPending);
      }
      if o in db.fences {
        return Some(FenceAlreadyExists);
      }
    }

    /** The observation budget and the new fence, in the same transaction. */
    method OpenFence(o: Id, fenceId: Id, fate: Fate) returns (reply: Reply)
      modifies store
      ensures Settle(old(store.db), OpenTxn(old(store.db), o, fenceId), fate) == (store.db, reply)
    {
      hide ReserveObservation;
      var db := store.db;
      var exhausted, counted := CountObservation(db, o);
      if exhausted {
        store.Persist(Halt(db, "OBSERVATION_BUDGET_EXHAUSTED"), fate);
        return Refusal(BudgetExceeded, fate);
      }
      if exists x | x in db.fences :: db.fences[x].fenceId == fenceId {
        return Refusal(Unavailable, fate);
      }
      db := counted.(fences := counted.fences[o := Fence(fenceId, Open, None)]);
      store.Persist(db, fate);
      reply := if fate == Acknowledged then Ok else Err(Unavailable);
    }

    method JoinObservation(o: Id, fenceId: Id, fate: Fate) returns (reply: Reply)
      requires Valid()
      modifies this`active
      ensures Took(Join(o, fenceId), fate, reply) && Valid()
    {
      if active.Some? {
        return Err(CapabilityAlreadySet);
      }
      var db := store.db;
      if db.stopped {
        return Refusal(RunStopped, fate);
      }
      if !(IsOpen(db.fences, o) && db.fences[o].fenceId == fenceId) {
        return Refusal(CapabilityRequired, fate);
      }
      if fate != Acknowledged {
        return Err(Unavailable);
      }
      active := Some(Capability(o, fenceId));
      reply := Ok;
    }

    method CloseSafeObservation(o: Id, summary: Id, fate: Fate) returns (reply: Reply)
      requires Valid()
      modifies this`active, store
      ensures Took(Close(o, summary), fate, reply) && Valid() && Evolves(old(store.db), store.db)
    {
      ExecGood(store.db, active, Close(o, summary));
      var db := store.db;
      if db.stopped {
        return Refusal(StopClearanceNotAuthorized, fate);
      }
      var e := AssertFenceAccess(db, o);
      if e.Some? {
        return Refusal(e.value, fate);
      }
      if !(IsOpen(db.fences, o) && Holds(db.fences, active, o)) {
        return Refusal(CapabilityRequired, fate);
      }
      if AnyUnsafe(db) {
        return Refusal(UnresolvedCustody, fate);
      }
      var row := db.fences[o].(state := Closed, summary := Some(summary));
      store.Persist(db.(fences := db.fences[o := row]), fate);
      if fate != Acknowledged {
        return Err(Unavailable);
      }
      active := None;
      reply := Ok;
    }

    method Reserve(r: Reservation, fate: Fate) returns (reply: Reply)
      requires Valid()
      modifies store
      ensures Took(Op.Reserve(r), fate, reply) && Valid() && Evolves(old(store.db), store.db)
    {
      ExecGood(store.db, active, Op.Reserve(r));
      assert Exec(store.db, active, Op.Reserve(r)) == ReserveTxn(store.db, active, r);
      SettledGood(store.db, ReserveTxn(store.db, active, r), fate);
      hide Inv, Evolves, ReserveError, GrantTxn, Exec, TxnGood;
      if r.retry > 1 || (r.retry == 0) != r.retryReason.None? {
        return Err(InvalidArgument);
      }
      var e := CheckReservation(r);
      if e.Some? {
        return Refusal(e.value, fate);
      }
      reply := Grant(r, fate);
      OthersStayValid(this);
    }

    /** The refusals that precede the budgets. */
    method CheckReservation(r: Reservation) returns (e: Option<Error>)
      requires Valid()
      ensures e == ReserveError(store.db, active, r)
    {
      hide FenceError, PriorError;
      if store.db.stopped {
        return Some(RunStopped);
      }
      e := AssertFenceAccess(store.db, r.observation);
      if e.None? {
        e := CheckPrior(store.db, r);
      }
    }

    /** The budgets and the insertion, in the same transaction. */
    method Grant(r: Reservation, fate: Fate) returns (reply: Reply)
      modifies store
      ensures Settle(old(store.db), GrantTxn(old(store.db), r), fate) == (store.db, reply)
    {
      hide ReserveObservation, TokenTaken, RoleAttempts;
      var db := store.db;
      if |RoleAttempts(db.attempts, r.role)| >= db.limits.For(r.role) {
        store.Persist(Halt(db, "ROLE_BUDGET_EXHAUSTED"), fate);
        return Refusal(BudgetExceeded, fate);
      }
      var exhausted, counted := CountObservation(db, r.observation);
      if exhausted {
        store.Persist(Halt(db, "OBSERVATION_BUDGET_EXHAUSTED"), fate);
        return Refusal(BudgetExceeded, fate);
      }
      if TokenTaken(db, r) {
        return Refusal(Unavailable, fate);
      }
      db := counted.(attempts := counted.attempts[r.attemptId := Attempt(r, Reserved, None)]);
      store.Persist(db, fate);
      reply := if fate == Acknowledged then Ok else Err(Unavailable);
    }

    method Start(r: Reservation, fate: Fate) returns (reply: Reply)
      requires Valid()
      modifies store
      ensures Took(Op.Start(r), fate, reply) && Valid() && Evolves(old(store.db), store.db)
    {
      ExecGood(store.db, active, Op.Start(r));
      var db := store.db;
      if db.stopped {
        return Refusal(RunStopped, fate);
      }
      var e := AssertFenceAccess(db, r.observation);
      if e.Some? {
        return Refusal(e.value, fate);
      }
      if !Bound(db, r) {
        return Refusal(BindingMismatch, fate);
      }
      var row := db.attempts[r.attemptId];
      if row.state != Reserved {
        return Refusal(AlreadyStartedOrCompleted, fate);
      }
      row := row.(state := InFlight);
      store.Persist(db.(attempts := db.attempts[r.attemptId := row]), fate);
      reply := if fate == Acknowledged then Ok else Err(Unavailable);
    }

    method Finish(r: Reservation, outcome: Outcome, fate: Fate) returns (reply: Reply)
      requires Valid()
      modifies store
      ensures Took(Op.Finish(r, outcome), fate, reply) && Valid() && Evolves(old(store.db), store.db)
    {
      ExecGood(store.db, active, Op.Finish(r, outcome));
      var db := store.db;
      if !Bound(db, r) {
        return Refusal(BindingMismatch, fate);
      }
      var row := db.attempts[r.attemptId];
      if row.state == Terminal {
        return Refusal(AlreadyCompleted, fate);
      }
      if outcome == ReservationNoSend && row.state != Reserved {
        return Refusal(CannotClaimNoSendAfterStart, fate);
      }
      if outcome == ResponseObserved && row.state != InFlight {
        return Refusal(ResponseRequiresStart, fate);
      }
      row := row.(state := Terminal, outcome := Some(outcome));
      db := db.(attempts := db.attempts[r.attemptId := row]);
      if !Safe(outcome) {
        db := Halt(db, OutcomeReason(outcome));
      }
      store.Persist(db, fate);
      reply := if fate == Acknowledged then Ok else Err(Unavailable);
    }

    method Stop(reason: string, fate: Fate) returns (reply: Reply)
      requires Valid()
      modifies store
      ensures Took(Op.Stop(reason), fate, reply) && Valid() && Evolves(old(store.db), store.db)
    {
      ExecGood(store.db, active, Op.Stop(reason));
      store.Persist(Halt(store.db, reason), fate);
      reply := if fate == Acknowledged then Ok else Err(Unavailable);
    }

    method ReserveMcp(o: Id, proposal: Id, reservationId: Id, fate: Fate) returns (reply: Reply)
      requires Valid()
      modifies store
      ensures Took(Op.ReserveMcp(o, proposal, reservationId), fate, reply) && Valid()
              && Evolves(old(store.db), store.db)
    {
      ExecGood(store.db, active, Op.ReserveMcp(o, proposal, reservationId));
      var db := store.db;
      if db.stopped {
        return Refusal(RunStopped, fate);
      }
      var e := AssertFenceAccess(db, o);
      if e.Some? {
        return Refusal(e.value, fate);
      }
      if o in db.mcp {
        return Refusal(DuplicateMcp, fate);
      }
      var exhausted, counted := CountObservation(db, o);
      if exhausted {
        store.Persist(Halt(db, "OBSERVATION_BUDGET_EXHAUSTED"), fate);
        return Refusal(BudgetExceeded, fate);
      }
      if exists x | x in db.mcp :: db.mcp[x].reservationId == reservationId {
        return Refusal(Unavailable, fate);
      }
      var row := McpCall(reservationId, proposal, McpReserved, None);
      store.Persist(counted.(mcp := counted.mcp[o := row]), fate);
      reply := if fate == Acknowledged then Ok else Err(Unavailable);
    }

    method AdmitMcp(o: Id, proposal: Id, fate: Fate) returns (reply: Reply)
      requires Valid()
      modifies store
      ensures Took(Op.AdmitMcp(o, proposal), fate, reply) && Valid() && Evolves(old(store.db), store.db)
    {
      ExecGood(store.db, active, Op.AdmitMcp(o, proposal));
      var db := store.db;
      if db.stopped {
        return Refusal(RunStopped, fate);
      }
      var e := AssertFenceAccess(db, o);
      if e.Some? {
        return Refusal(e.value, fate);
      }
      if o !in db.mcp {
        return Refusal(McpMissing, fate);
      }
      if db.mcp[o].proposal != proposal {
        return Refusal(McpProposalMismatch, fate);
      }
      if db.mcp[o].state != McpReserved {
        return Refusal(McpAlreadyAdmitted, fate);
      }
      store.Persist(db.(mcp := db.mcp[o := db.mcp[o].(state := McpAdmitted)]), fate);
      reply := if fate == Acknowledged then Ok else Err(Unavailable);
    }

    method FinishMcp(o: Id, outcome: McpOutcome, fate: Fate) returns (reply: Reply)
      requires Valid()
      modifies store
      ensures Took(Op.FinishMcp(o, outcome), fate, reply) && Valid() && Evolves(old(store.db), store.db)
      ensures reply.Ok? ==>
        && o in store.db.mcp && store.db.mcp[o].state == McpTerminal && store.db.mcp[o].outcome == Some(outcome)
        && (outcome == ClientReceiptUnknown ==> store.db.stopped)
    {
      ExecGood(store.db, active, Op.FinishMcp(o, outcome));
      var db := store.db;
      if o !in db.mcp || db.mcp[o].state == McpTerminal {
        return Refusal(McpMissingOrCompleted, fate);
      }
      db := db.(mcp := db.mcp[o := db.mcp[o].(state := McpTerminal, outcome := Some(outcome))]);
      if outcome == ClientReceiptUnknown {
        db := Halt(db, "CLIENT_RECEIPT_UNKNOWN");
      }
      store.Persist(db, fate);
      reply := if fate == Acknowledged then Ok else Err(Unavailable);
    }

    method EnsureRecoverable(fate: Fate) returns (reply: Reply)
      requires Valid()
      modifies store
      ensures Took(Op.EnsureRecoverable, fate, reply) && Valid() && Evolves(old(store.db), store.db)
    {
      ExecGood(store.db, active, Op.EnsureRecoverable);
      var db := store.db;
      var e := None;
      if active.Some? {
        e := AssertFenceAccess(db, active.value.observation);
      } else if AnyOpen(db) {
        e := Some(UnresolvedFence);
      }
      if e.Some? {
        return Refusal(e.value, fate);
      }
      if AnyPending(db) {
        store.Persist(Halt(db, "UNRESOLVED_PENDING_ATTEMPT"), fate);
        return Refusal(UnresolvedPending, fate);
      }
      if db.stopped {
        return Refusal(RunStopped, fate);
      }
      reply := if fate == Acknowledged then Ok else Err(Unavailable);
    }

    /** snapshot(): one consistent and sound read, or a store failure. */
    method Snapshot(fate: Fate) returns (state: Option<Ledger>)
      requires Valid()
      ensures state.Some? <==> fate == Acknowledged
      ensures state.Some? ==> Inv(state.value) && Evolves(state.value, store.db) && Evolves(store.db, state.value)
      ensures state.Some? ==> state.value == store.db
    {
      state := if fate == Acknowledged then Some(store.db) else None;
    }
  }

  /** A method call on a controller is one step of the many-controller system. */
  twostate lemma TookIsNext(b: AttemptBudget, s: System, pid: nat, op: Op, fate: Fate, reply: Reply)
    requires b.Took(op, fate, reply)
    requires pid in s.caps && s.db == old(b.store.db) && s.caps[pid] == old(b.active)
    ensures Next(s, Call(pid, op, fate)) == System(b.store.db, s.caps[pid := b.active])
  {
    assert s.caps == s.caps[pid := s.caps[pid]];
  }

  /** Writes by one controller leave every other controller of the store valid. */
  twostate lemma OthersStayValid(b: AttemptBudget)
    requires old(b.Valid()) && unchanged(b)
    requires Inv(b.store.db) && Evolves(old(b.store.db), b.store.db)
    ensures b.Valid()
  {
    if b.active.Some? {
      var o := b.active.value.observation;
      assert FenceEvolves(old(b.store.db).fences[o], b.store.db.fences[o]);
    }
  }
}
