/** What every transaction of the ledger keeps (Inv), and how one durable state
    may follow another (Evolves): nothing is refunded, reopened or rewritten. */
module LedgerInvariant {
  import opened Options
  import opened Ledger

  ghost predicate AttemptSound(observations: set<Id>, stopped: bool, id: Id, a: Attempt) {
    && a.reservation.attemptId == id
    && a.reservation.retry <= 1
    && a.reservation.observation in observations
    && (a.outcome.Some? <==> a.state == Terminal)
    && (a.outcome.Some? && !Safe(a.outcome.value) ==> stopped)
  }

  ghost predicate AttemptsSound(observations: set<Id>, stopped: bool, attempts: map<Id, Attempt>) {
    forall id | id in attempts :: AttemptSound(observations, stopped, id, attempts[id])
  }

  ghost predicate SlotsUnique(attempts: map<Id, Attempt>) {
    forall a, b | a in attempts && b in attempts
      && SameSlot(attempts[a].reservation, attempts[b].reservation) :: a == b
  }

  /** r is a retry of p: same observation and role, same frozen identity, and p
      had ended safely before r was reserved. */
  ghost predicate Sibling(r: Reservation, p: Attempt) {
    && p.reservation.observation == r.observation
    && p.reservation.role == r.role
    && p.reservation.retry == 0
    && SameIdentity(p.reservation, r)
    && p.state == Terminal
    && KnownCompletion(p)
  }

  ghost predicate HasSibling(attempts: map<Id, Attempt>, r: Reservation) {
    exists p :: p in attempts && Sibling(r, attempts[p])
  }

  ghost predicate RetriesSound(attempts: map<Id, Attempt>) {
    forall id | id in attempts && attempts[id].reservation.retry == 1 :: HasSibling(attempts, attempts[id].reservation)
  }

  ghost predicate McpSound(observations: set<Id>, stopped: bool, mcp: map<Id, McpCall>) {
    forall o | o in mcp ::
      && o in observations
      && (mcp[o].outcome.Some? <==> mcp[o].state == McpTerminal)
      && (mcp[o].outcome.Some? && mcp[o].outcome.value != ClientResponseObserved ==> stopped)
  }

  ghost predicate FencesSound(fences: map<Id, Fence>) {
    && (forall a, b | a in fences && b in fences && fences[a].fenceId == fences[b].fenceId :: a == b)
    && (forall a, b | IsOpen(fences, a) && IsOpen(fences, b) :: a == b)
  }

  /** While a fence is open, everything pending belongs to its observation. */
  ghost predicate Custody(fences: map<Id, Fence>, attempts: map<Id, Attempt>, mcp: map<Id, McpCall>) {
    forall o | IsOpen(fences, o) ::
      && (forall id | id in attempts && AttemptPending(attempts[id]) :: attempts[id].reservation.observation == o)
      && (forall m | m in mcp && McpPending(mcp[m]) :: m == o)
  }

  ghost predicate RoleBudgets(limits: Limits, attempts: map<Id, Attempt>) {
    forall role :: |RoleAttempts(attempts, role)| <= limits.For(role)
  }

  ghost predicate Inv(db: Ledger) {
    && AttemptsSound(db.observations, db.stopped, db.attempts)
    && SlotsUnique(db.attempts)
    && RetriesSound(db.attempts)
    && McpSound(db.observations, db.stopped, db.mcp)
    && db.fences.Keys <= db.observations
    && FencesSound(db.fences)
    && Custody(db.fences, db.attempts, db.mcp)
    && |db.observations| <= db.limits.observations
    && RoleBudgets(db.limits, db.attempts)
    && (db.stopped <==> db.stopReason.Some?)
  }

  function Rank(s: AttemptState): nat {
    match s case Reserved => 0 case InFlight => 1 case Terminal => 2
  }
  function McpRank(s: McpState): nat {
    match s case McpReserved => 0 case McpAdmitted => 1 case McpTerminal => 2
  }

  ghost predicate AttemptEvolves(a: Attempt, b: Attempt) {
    a.reservation == b.reservation && Rank(a.state) <= Rank(b.state) && (a.state == Terminal ==> a == b)
  }
  ghost predicate McpEvolves(a: McpCall, b: McpCall) {
    && a.reservationId == b.reservationId && a.proposal == b.proposal
    && McpRank(a.state) <= McpRank(b.state) && (a.state == McpTerminal ==> a == b)
  }
  ghost predicate FenceEvolves(a: Fence, b: Fence) {
    a.fenceId == b.fenceId && (a.state == Closed ==> a == b)
  }

  ghost predicate Evolves(a: Ledger, b: Ledger) {
    && a.limits == b.limits
    && a.observations <= b.observations
    && (a.stopped ==> b.stopped && b.stopReason == a.stopReason)
    && (forall id | id in a.attempts :: id in b.attempts && AttemptEvolves(a.attempts[id], b.attempts[id]))
    && (forall o | o in a.mcp :: o in b.mcp && McpEvolves(a.mcp[o], b.mcp[o]))
    && (forall o | o in a.fences :: o in b.fences && FenceEvolves(a.fences[o], b.fences[o]))
  }

  lemma EvolvesTransitive(a: Ledger, b: Ledger, c: Ledger)
    requires Evolves(a, b) && Evolves(b, c)
    ensures Evolves(a, c)
  {
    forall id | id in a.attempts ensures id in c.attempts && AttemptEvolves(a.attempts[id], c.attempts[id]) {
      assert AttemptEvolves(a.attempts[id], b.attempts[id]) && AttemptEvolves(b.attempts[id], c.attempts[id]);
    }
    forall o | o in a.mcp ensures o in c.mcp && McpEvolves(a.mcp[o], c.mcp[o]) {
      assert McpEvolves(a.mcp[o], b.mcp[o]) && McpEvolves(b.mcp[o], c.mcp[o]);
    }
    forall o | o in a.fences ensures o in c.fences && FenceEvolves(a.fences[o], c.fences[o]) {
      assert FenceEvolves(a.fences[o], b.fences[o]) && FenceEvolves(b.fences[o], c.fences[o]);
    }
  }

  /** What a single committed transaction guarantees. */
  ghost predicate Good(db: Ledger, db': Ledger) { Inv(db') && Evolves(db, db') }

  ghost predicate TxnGood(db: Ledger, txn: Txn) { txn.Rejected() || Good(db, txn.db) }

  /** Whatever the fate of the commit, the ledger it leaves is sound and grew from the one before. */
  lemma SettledGood(db: Ledger, txn: Txn, fate: Fate)
    requires Inv(db) && TxnGood(db, txn)
    ensures Inv(Settle(db, txn, fate).0) && Evolves(db, Settle(db, txn, fate).0)
  {
  }

  lemma InitialInv(limits: Limits)
    ensures Inv(Create(limits))
  {
    assert forall role :: RoleAttempts(map[], role) == {};
  }

  // ---- One lemma per kind of write ----

  lemma HaltGood(db: Ledger, reason: string)
    requires Inv(db)
    ensures Good(db, Halt(db, reason))
  {
    StoppedKeepsRows(db.observations, db.stopped, db.observations, true, db.attempts, db.mcp);
  }

  lemma ReserveObservationGood(db: Ledger, o: Id)
    requires Inv(db)
    ensures ReserveObservation(db, o).Some? ==>
      Good(db, ReserveObservation(db, o).value) && o in ReserveObservation(db, o).value.observations
  {
    StoppedKeepsRows(db.observations, db.stopped, db.observations + {o}, db.stopped, db.attempts, db.mcp);
  }

  /** Row soundness only needs the observations to grow and the stop to be kept. */
  lemma StoppedKeepsRows(obs: set<Id>, stopped: bool, obs': set<Id>, stopped': bool,
                         attempts: map<Id, Attempt>, mcp: map<Id, McpCall>)
    requires AttemptsSound(obs, stopped, attempts) && McpSound(obs, stopped, mcp)
    requires obs <= obs' && (stopped ==> stopped')
    ensures AttemptsSound(obs', stopped', attempts) && McpSound(obs', stopped', mcp)
  {
    forall id | id in attempts ensures AttemptSound(obs', stopped', id, attempts[id]) {
      assert AttemptSound(obs, stopped, id, attempts[id]);
    }
  }

  /** Rows that only move forward, and new retries that have their sibling, keep RetriesSound. */
  lemma RetriesKept(a: map<Id, Attempt>, b: map<Id, Attempt>)
    requires RetriesSound(a)
    requires forall id | id in a :: id in b && AttemptEvolves(a[id], b[id])
    requires forall id | id in b && id !in a && b[id].reservation.retry == 1 :: HasSibling(a, b[id].reservation)
    ensures RetriesSound(b)
  {
    forall id | id in b && b[id].reservation.retry == 1
      ensures HasSibling(b, b[id].reservation)
    {
      assert id in a ==> AttemptEvolves(a[id], b[id]);
      var p :| p in a && Sibling(b[id].reservation, a[p]);
      assert AttemptEvolves(a[p], b[p]);
    }
  }

  /** Moving one attempt forward; an unsafe outcome is written with the stop set. */
  lemma AdvanceAttemptGood(db: Ledger, id: Id, row: Attempt)
    requires Inv(db)
    requires id in db.attempts && AttemptEvolves(db.attempts[id], row)
    requires row.outcome.Some? <==> row.state == Terminal
    requires row.outcome.Some? && !Safe(row.outcome.value) ==> db.stopped
    ensures Good(db, db.(attempts := db.attempts[id := row]))
  {
    var h := db.attempts[id := row];
    assert AttemptSound(db.observations, db.stopped, id, db.attempts[id]);
    AdvanceRows(db.attempts, id, row);
    RetriesKept(db.attempts, h);
  }

  lemma AdvanceRows(attempts: map<Id, Attempt>, id: Id, row: Attempt)
    requires id in attempts && attempts[id].reservation == row.reservation
    ensures var h := attempts[id := row];
      && (forall x | x in h :: h[x].reservation == attempts[x].reservation)
      && (SlotsUnique(attempts) ==> SlotsUnique(h))
      && (forall role :: RoleAttempts(h, role) == RoleAttempts(attempts, role))
  {
    var h := attempts[id := row];
    assert forall x | x in h :: h[x].reservation == attempts[x].reservation;
    assert forall role :: RoleAttempts(h, role) == RoleAttempts(attempts, role);
  }

  lemma AdvanceMcpGood(db: Ledger, o: Id, row: McpCall)
    requires Inv(db)
    requires o in db.mcp && McpEvolves(db.mcp[o], row)
    requires row.outcome.Some? <==> row.state == McpTerminal
    requires row.outcome.Some? && row.outcome.value != ClientResponseObserved ==> db.stopped
    ensures Good(db, db.(mcp := db.mcp[o := row]))
  {
  }

  // ---- Transactions ----

  lemma BeginGood(db: Ledger, cap: Option<Capability>, o: Id, fenceId: Id)
    requires Inv(db)
    ensures TxnGood(db, BeginTxn(db, cap, o, fenceId))
  {
    if cap.None? && BeginError(db, o).None? {
      hide Inv, AnyPending, OpenTxn;
      assert !AnyOpen(db);
      OpenTxnGood(db, o, fenceId);
    }
  }

  lemma OpenTxnGood(db: Ledger, o: Id, fenceId: Id)
    requires Inv(db) && !AnyPending(db) && !AnyOpen(db) && o !in db.fences
    ensures TxnGood(db, OpenTxn(db, o, fenceId))
  {
    var txn := OpenTxn(db, o, fenceId);
    if txn.CommitThenRaise? {
      HaltGood(db, txn.db.stopReason.value);
    } else if txn.Commit? {
      ReserveObservationGood(db, o);
      var h := ReserveObservation(db, o).value;
      OpenFenceGood(h, o, fenceId);
      EvolvesTransitive(db, h, txn.db);
    }
  }

  lemma OpenFenceGood(db: Ledger, o: Id, fenceId: Id)
    requires Inv(db) && !AnyPending(db) && !AnyOpen(db)
    requires o !in db.fences && o in db.observations
    requires forall x | x in db.fences :: db.fences[x].fenceId != fenceId
    ensures Good(db, db.(fences := db.fences[o := Fence(fenceId, Open, None)]))
  {
    var h := db.fences[o := Fence(fenceId, Open, None)];
    assert forall x | IsOpen(h, x) :: x == o || IsOpen(db.fences, x);
  }

  lemma CloseGood(db: Ledger, cap: Option<Capability>, o: Id, summary: Id)
    requires Inv(db)
    ensures TxnGood(db, CloseTxn(db, cap, o, summary))
  {
    var txn := CloseTxn(db, cap, o, summary);
    if txn.Commit? {
      assert forall x | IsOpen(txn.db.fences, x) :: IsOpen(db.fences, x);
    }
  }

  lemma ReserveGood(db: Ledger, cap: Option<Capability>, r: Reservation)
    requires Inv(db)
    ensures TxnGood(db, ReserveTxn(db, cap, r))
  {
    var txn := ReserveTxn(db, cap, r);
    if txn.CommitThenRaise? {
      HaltGood(db, txn.db.stopReason.value);
    } else if txn.Commit? {
      if r.retry == 1 { RetryHasSibling(db, r); }
      assert forall id | id in db.attempts && SameSlot(db.attempts[id].reservation, r) :: id in Prior(db, r);
      AdmittedReservationGood(db, r);
    }
  }

  lemma AdmittedReservationGood(db: Ledger, r: Reservation)
    requires Inv(db) && ReserveObservation(db, r.observation).Some?
    requires r.retry <= 1 && r.attemptId !in db.attempts
    requires forall id | id in db.attempts :: !SameSlot(db.attempts[id].reservation, r)
    requires |RoleAttempts(db.attempts, r.role)| < db.limits.For(r.role)
    requires forall x | IsOpen(db.fences, x) :: x == r.observation
    requires r.retry == 1 ==> HasSibling(db.attempts, r)
    ensures var h := ReserveObservation(db, r.observation).value;
      Good(db, h.(attempts := h.attempts[r.attemptId := Attempt(r, Reserved, None)]))
  {
    ReserveObservationGood(db, r.observation);
    var h := ReserveObservation(db, r.observation).value;
    InsertAttemptGood(h, r);
    EvolvesTransitive(db, h, h.(attempts := h.attempts[r.attemptId := Attempt(r, Reserved, None)]));
  }

  lemma RetryHasSibling(db: Ledger, r: Reservation)
    requires AttemptsSound(db.observations, db.stopped, db.attempts) && r.retry == 1
    requires |Prior(db, r)| == 1
    requires forall p | p in Prior(db, r) ::
      KnownCompletion(db.attempts[p]) && SameIdentity(db.attempts[p].reservation, r)
    requires forall p | p in Prior(db, r) :: db.attempts[p].reservation.retry != r.retry
    ensures HasSibling(db.attempts, r)
  {
    var p :| p in Prior(db, r);
    assert AttemptSound(db.observations, db.stopped, p, db.attempts[p]);
    assert Sibling(r, db.attempts[p]);
  }

  lemma InsertAttemptGood(db: Ledger, r: Reservation)
    requires Inv(db)
    requires r.retry <= 1 && r.observation in db.observations && r.attemptId !in db.attempts
    requires forall id | id in db.attempts :: !SameSlot(db.attempts[id].reservation, r)
    requires |RoleAttempts(db.attempts, r.role)| < db.limits.For(r.role)
    requires forall x | IsOpen(db.fences, x) :: x == r.observation
    requires r.retry == 1 ==> HasSibling(db.attempts, r)
    ensures Good(db, db.(attempts := db.attempts[r.attemptId := Attempt(r, Reserved, None)]))
  {
    InsertRows(db.attempts, r, db.limits);
    assert forall id | id in db.attempts :: AttemptSound(db.observations, db.stopped, id, db.attempts[id]);
  }

  lemma InsertRows(attempts: map<Id, Attempt>, r: Reservation, limits: Limits)
    requires SlotsUnique(attempts) && RetriesSound(attempts) && RoleBudgets(limits, attempts)
    requires r.attemptId !in attempts
    requires forall id | id in attempts :: !SameSlot(attempts[id].reservation, r)
    requires r.retry == 1 ==> HasSibling(attempts, r)
    requires |RoleAttempts(attempts, r.role)| < limits.For(r.role)
    ensures var h := attempts[r.attemptId := Attempt(r, Reserved, None)];
      SlotsUnique(h) && RetriesSound(h) && RoleBudgets(limits, h)
  {
    var h := attempts[r.attemptId := Attempt(r, Reserved, None)];
    RetriesKept(attempts, h);
    assert RoleAttempts(h, r.role) == RoleAttempts(attempts, r.role) + {r.attemptId};
    assert forall role | role != r.role :: RoleAttempts(h, role) == RoleAttempts(attempts, role);
  }

  lemma StartGood(db: Ledger, cap: Option<Capability>, r: Reservation)
    requires Inv(db)
    ensures TxnGood(db, StartTxn(db, cap, r))
  {
    if StartTxn(db, cap, r).Commit? {
      AdvanceAttemptGood(db, r.attemptId, db.attempts[r.attemptId].(state := InFlight));
    }
  }

  lemma FinishGood(db: Ledger, r: Reservation, outcome: Outcome)
    requires Inv(db)
    ensures TxnGood(db, FinishTxn(db, r, outcome))
  {
    if FinishTxn(db, r, outcome).Commit? {
      var row := db.attempts[r.attemptId].(state := Terminal, outcome := Some(outcome));
      var h := if Safe(outcome) then db else Halt(db, OutcomeReason(outcome));
      if !Safe(outcome) { HaltGood(db, OutcomeReason(outcome)); }
      AdvanceAttemptGood(h, r.attemptId, row);
      EvolvesTransitive(db, h, h.(attempts := h.attempts[r.attemptId := row]));
    }
  }

  lemma ReserveMcpGood(db: Ledger, cap: Option<Capability>, o: Id, proposal: Id, reservationId: Id)
    requires Inv(db)
    ensures TxnGood(db, ReserveMcpTxn(db, cap, o, proposal, reservationId))
  {
    var txn := ReserveMcpTxn(db, cap, o, proposal, reservationId);
    if txn.CommitThenRaise? {
      HaltGood(db, txn.db.stopReason.value);
    } else if txn.Commit? {
      ReserveObservationGood(db, o);
      var h := ReserveObservation(db, o).value;
      InsertMcpGood(h, o, McpCall(reservationId, proposal, McpReserved, None));
      EvolvesTransitive(db, h, txn.db);
    }
  }

  lemma InsertMcpGood(db: Ledger, o: Id, row: McpCall)
    requires Inv(db) && o !in db.mcp && o in db.observations
    requires row.state == McpReserved && row.outcome == None
    requires forall x | IsOpen(db.fences, x) :: x == o
    ensures Good(db, db.(mcp := db.mcp[o := row]))
  {
  }

  lemma AdmitMcpGood(db: Ledger, cap: Option<Capability>, o: Id, proposal: Id)
    requires Inv(db)
    ensures TxnGood(db, AdmitMcpTxn(db, cap, o, proposal))
  {
    if AdmitMcpTxn(db, cap, o, proposal).Commit? {
      AdvanceMcpGood(db, o, db.mcp[o].(state := McpAdmitted));
    }
  }

  lemma FinishMcpGood(db: Ledger, o: Id, outcome: McpOutcome)
    requires Inv(db)
    ensures TxnGood(db, FinishMcpTxn(db, o, outcome))
  {
    if FinishMcpTxn(db, o, outcome).Commit? {
      var row := db.mcp[o].(state := McpTerminal, outcome := Some(outcome));
      var h := if outcome == ClientReceiptUnknown then Halt(db, "CLIENT_RECEIPT_UNKNOWN") else db;
      HaltGood(db, "CLIENT_RECEIPT_UNKNOWN");
      AdvanceMcpGood(h, o, row);
      EvolvesTransitive(db, h, h.(mcp := h.mcp[o := row]));
    }
  }

  lemma EnsureRecoverableGood(db: Ledger, cap: Option<Capability>)
    requires Inv(db)
    ensures TxnGood(db, EnsureRecoverableTxn(db, cap))
  {
    HaltGood(db, "UNRESOLVED_PENDING_ATTEMPT");
  }
}
