/** What a process of the protocol does not control: the other controllers of the
    same store, the fate of its own store operations, and its monotonic clock. */
module EvaluationWorld {
  import opened Options
  import opened Ledger
  import opened LedgerInvariant
  import opened LedgerRuns
  import opened AttemptBudgetController

  /** The event starts or finishes the attempt id, which needs its reservation record. */
  predicate Touches(e: Event, id: Id) {
    e.Call? && (e.op.Start? || e.op.Finish?) && e.op.r.attemptId == id
  }

  predicate InFlightAs(db: Ledger, r: Reservation) { Bound(db, r) && db.attempts[r.attemptId].state == InFlight }

  lemma ReserveKeepsRow(db: Ledger, cap: Option<Capability>, r: Reservation, id: Id)
    requires id in db.attempts && !ReserveTxn(db, cap, r).Rejected()
    ensures var db' := ReserveTxn(db, cap, r).db; id in db'.attempts && db'.attempts[id] == db.attempts[id]
  {
    hide ReserveError, RoleAttempts;
  }

  lemma ExecKeepsRow(db: Ledger, cap: Option<Capability>, op: Op, id: Id)
    requires id in db.attempts && !((op.Start? || op.Finish?) && op.r.attemptId == id)
    requires !Exec(db, cap, op).Rejected()
    ensures var db' := Exec(db, cap, op).db; id in db'.attempts && db'.attempts[id] == db.attempts[id]
  {
    hide ReserveTxn, FenceError, AnyUnsafe, AnyPending, AnyOpen, Holds, BeginError, IsOpen;
    if op.Reserve? { ReserveKeepsRow(db, cap, op.r, id); }
  }

  lemma StepKeepsRow(s: System, e: Event, id: Id)
    requires id in s.db.attempts && !Touches(e, id)
    ensures id in Next(s, e).db.attempts && Next(s, e).db.attempts[id] == s.db.attempts[id]
  {
    if e.Call? && e.pid in s.caps && !Exec(s.db, s.caps[e.pid], e.op).Rejected() {
      ExecKeepsRow(s.db, s.caps[e.pid], e.op, id);
    }
  }

  /** A row whose reservation nobody else presents is untouched by any foreign run. */
  lemma {:induction false} RunKeepsRow(s: System, es: seq<Event>, id: Id)
    requires id in s.db.attempts && forall e | e in es :: !Touches(e, id)
    ensures id in Run(s, es).db.attempts && Run(s, es).db.attempts[id] == s.db.attempts[id]
    decreases |es|
  {
    if es != [] {
      StepKeepsRow(s, es[0], id);
      RunKeepsRow(Next(s, es[0]), es[1..], id);
    }
  }

  predicate ClosesFence(e: Event, o: Id) { e.Call? && e.op.Close? && e.op.o == o }

  /** A foreign run without a close of o leaves its fence open. */
  lemma {:induction false} RunKeepsOpen(s: System, es: seq<Event>, o: Id)
    requires IsOpen(s.db.fences, o) && forall e | e in es :: !ClosesFence(e, o)
    ensures IsOpen(Run(s, es).db.fences, o)
    decreases |es|
  {
    if es != [] {
      assert !ClosesFence(es[0], o);
      StepKeepsOpen(s, es[0], o);
      RunKeepsOpen(Next(s, es[0]), es[1..], o);
    }
  }

  lemma SystemFollows(db: Ledger, db': Ledger, caps: map<nat, Option<Capability>>)
    requires SysInv(System(db, caps)) && Inv(db') && Evolves(db, db')
    ensures SysInv(System(db', caps))
  {
    forall pid | pid in caps && caps[pid].Some? ensures Holds(db'.fences, caps[pid], caps[pid].value.observation) {
      var o := caps[pid].value.observation;
      assert Holds(db.fences, caps[pid], o);
      assert FenceEvolves(db.fences[o], db'.fences[o]);
    }
  }

  lemma StartRow(db: Ledger, cap: Option<Capability>, r: Reservation, fate: Fate)
    requires Bound(db, r)
    ensures var after := Settle(db, Exec(db, cap, Op.Start(r)), fate);
      && Bound(after.0, r)
      && after.0.attempts[r.attemptId] in {db.attempts[r.attemptId], db.attempts[r.attemptId].(state := InFlight)}
      && (after.1.Ok? ==> db.attempts[r.attemptId].state == Reserved && InFlightAs(after.0, r))
  {
  }

  lemma FinishRow(db: Ledger, cap: Option<Capability>, r: Reservation, outcome: Outcome, fate: Fate)
    requires Bound(db, r)
    ensures var after := Settle(db, Exec(db, cap, Op.Finish(r, outcome)), fate);
      && Bound(after.0, r)
      && after.0.attempts[r.attemptId] in {db.attempts[r.attemptId], Attempt(r, Terminal, Some(outcome))}
      && (after.1.Ok? ==> after.0.attempts[r.attemptId] == Attempt(r, Terminal, Some(outcome)))
  {
  }

  lemma ReserveRow(db: Ledger, cap: Option<Capability>, r: Reservation, fate: Fate)
    ensures var after := Settle(db, Exec(db, cap, Op.Reserve(r)), fate);
      after.1.Ok? ==> r.attemptId in after.0.attempts && after.0.attempts[r.attemptId] == Attempt(r, Reserved, None)
  {
  }

  lemma CloseRow(db: Ledger, cap: Option<Capability>, o: Id, summary: Id, fate: Fate)
    requires Inv(db)
    ensures var after := Settle(db, Exec(db, cap, Op.Close(o, summary)), fate);
      && (IsOpen(db.fences, o) && !IsOpen(after.0.fences, o) ==>
            && !db.stopped && !AnyPending(db)
            && o in after.0.fences && after.0.fences[o].summary == Some(summary))
      && (after.1.Ok? ==> !IsOpen(after.0.fences, o))
  {
    CloseExactly(db, cap, o, summary);
  }

  /** The holder of an open fence closes it exactly when the run is unstopped, nothing is pending, and the commit is
      acknowledged. */
  lemma HeldClose(db: Ledger, cap: Option<Capability>, o: Id, summary: Id, fate: Fate)
    requires Inv(db)
    ensures IsOpen(db.fences, o) && Holds(db.fences, cap, o) ==>
      (Settle(db, Exec(db, cap, Op.Close(o, summary)), fate).1.Ok? <==>
        fate == Acknowledged && !db.stopped && !AnyPending(db))
  {
    CloseExactly(db, cap, o, summary);
    hide CloseTxn;
  }

  /** A record once bound stays bound, however the ledger evolves. */
  lemma BoundOutlasts(a: Ledger, b: Ledger, r: Reservation)
    requires Bound(a, r) && Evolves(a, b)
    ensures Bound(b, r)
  {
    assert AttemptEvolves(a.attempts[r.attemptId], b.attempts[r.attemptId]);
  }

  /** An operation that does not close o leaves its fence open, whatever its fate. */
  lemma SettleKeepsOpen(db: Ledger, cap: Option<Capability>, op: Op, fate: Fate, o: Id)
    requires IsOpen(db.fences, o) && !(op.Close? && op.o == o)
    ensures IsOpen(Settle(db, Exec(db, cap, op), fate).0.fences, o)
  {
    if !Exec(db, cap, op).Rejected() { FenceEffect(db, cap, op, o); }
    hide Exec;
  }

  lemma SettleKeepsAll(db: Ledger, cap: Option<Capability>, op: Op, fate: Fate, os: set<Id>)
    requires forall o | o in os :: IsOpen(db.fences, o) && !(op.Close? && op.o == o)
    ensures forall o | o in os :: IsOpen(Settle(db, Exec(db, cap, op), fate).0.fences, o)
  {
    forall o | o in os ensures IsOpen(Settle(db, Exec(db, cap, op), fate).0.fences, o) {
      SettleKeepsOpen(db, cap, op, fate, o);
    }
  }

  class World {
    const store: Store
    const clock: nat -> real           // successive samples of time.monotonic
    const fates: nat -> Fate           // fate of the k-th store operation
    const others: nat -> seq<Event>    // what everyone else does before it
    var caps: map<nat, Option<Capability>>
    var ticks: nat
    var latest: real
    var turns: nat
    ghost var mark: Ledger             // an earlier ledger this one has grown from
    ghost var guarded: set<Id>         // observations that cannot close for now

    ghost predicate Valid()
      reads this, store
    {
      && SysInv(System(store.db, caps))
      && Evolves(mark, store.db)
      && Guards()
      && latest <= clock(ticks)
      && forall i: nat, j: nat | i <= j :: clock(i) <= clock(j)
    }

    /** The fences of the guarded observations are open. */
    ghost predicate Guards()
      reads this`guarded, store
    {
      forall o | o in guarded :: NoForeignClose(o) && IsOpen(store.db.fences, o)
    }

    /** From here on every operation but the close of o keeps its fence open; a close has to release it first. */
    ghost method Guard(o: Id)
      requires Valid() && NoForeignClose(o) && IsOpen(store.db.fences, o)
      modifies this`guarded
      ensures Valid() && guarded == old(guarded) + {o}
    {
      guarded := guarded + {o};
    }

    ghost method Release(o: Id)
      requires Valid()
      modifies this`guarded
      ensures Valid() && guarded == old(guarded) - {o}
    {
      guarded := guarded - {o};
    }

    lemma GuardedIsOpen(o: Id)
      requires Valid() && o in guarded
      ensures IsOpen(store.db.fences, o)
    {
    }

    /** No other process holds the reservation record of attempt id. */
    ghost predicate Excludes(id: Id) {
      forall k: nat, e | e in others(k) :: !Touches(e, id)
    }

    /** No other process closes the fence of o: only its own supervisor does. */
    ghost predicate NoForeignClose(o: Id) {
      forall k: nat, e | e in others(k) :: !ClosesFence(e, o)
    }

    constructor (store: Store, clock: nat -> real, fates: nat -> Fate, others: nat -> seq<Event>)
      requires Inv(store.db) && forall i: nat, j: nat | i <= j :: clock(i) <= clock(j)
      ensures Valid() && this.store == store && this.clock == clock && this.fates == fates && this.others == others
      ensures caps == map[] && ticks == 0 && turns == 0 && guarded == {}
    {
      this.store, this.clock, this.fates, this.others := store, clock, fates, others;
      caps, ticks, latest, turns, mark, guarded := map[], 0, clock(0), 0, store.db, {};
    }

    ghost method Mark()
      requires Valid()
      modifies this`mark
      ensures Valid() && mark == store.db
    {
      mark := store.db;
    }

    method Now() returns (t: real)
      requires Valid()
      modifies this`ticks, this`latest
      ensures Valid() && old(latest) <= t == latest == clock(old(ticks)) && ticks == old(ticks) + 1
    {
      t := clock(ticks);
      ticks := ticks + 1;
      latest := t;
    }

    /** The system the next store operation meets: the others have had their turn. */
    ghost function Met(): System
      reads this`caps, this`turns, store
    {
      Run(System(store.db, caps), others(turns))
    }

    /** In the n turns from turn k nobody else acts and every commit is acknowledged. */
    ghost predicate Calm(k: nat, n: nat) {
      forall i | k <= i < k + n :: others(i) == [] && fates(i) == Acknowledged
    }

    lemma CalmWithin(k: nat, n: nat, i: nat, m: nat)
      requires Calm(k, n) && i + m <= n
      ensures Calm(k + i, m)
    {
    }

    lemma CalmMeets(n: nat)
      requires n > 0 && Calm(turns, n)
      ensures Met() == System(store.db, caps) && fates(turns) == Acknowledged
    {
    }

    /** The commits of the n turns from turn k were acknowledged. */
    ghost predicate Acked(k: nat, n: nat) { forall i | k <= i < k + n :: fates(i) == Acknowledged }

    /** One store operation took place, exactly: on the ledger it met and with the fate of its turn. */
    twostate predicate Did(b: AttemptBudget, op: Op, reply: Reply)
      reads this, store, b
    {
      && Settle(old(Met()).db, Exec(old(Met()).db, old(b.active), op), fates(old(turns))) == (store.db, reply)
      && b.active == (if reply.Ok? then CapAfter(old(b.active), op) else old(b.active))
      && caps == old(Met()).caps && turns == old(turns) + 1
    }

    /** The other controllers act, and then the next store operation gets its fate. */
    method Turn(b: AttemptBudget) returns (fate: Fate)
      requires Valid() && b.store == store && b.Valid()
      modifies this`caps, this`turns, store
      ensures Valid() && b.Valid()
      ensures System(store.db, caps) == old(Met()) && turns == old(turns) + 1 && fate == fates(old(turns))
      ensures Evolves(old(store.db), store.db)
      ensures forall id | Excludes(id) && id in old(store.db.attempts) ::
        id in store.db.attempts && store.db.attempts[id] == old(store.db.attempts)[id]
      ensures forall o | NoForeignClose(o) && IsOpen(old(store.db.fences), o) :: IsOpen(store.db.fences, o)
    {
      var es := others(turns);
      ghost var s := System(store.db, caps);
      RunGood(s, es);
      EvolvesTransitive(mark, s.db, Run(s, es).db);
      forall id | Excludes(id) && id in s.db.attempts
        ensures id in Run(s, es).db.attempts && Run(s, es).db.attempts[id] == s.db.attempts[id]
      {
        RunKeepsRow(s, es, id);
      }
      forall o | NoForeignClose(o) && IsOpen(s.db.fences, o) ensures IsOpen(Run(s, es).db.fences, o) {
        RunKeepsOpen(s, es, o);
      }
      var after := Run(System(store.db, caps), es);
      store.db := after.db;
      caps := after.caps;
      fate := fates(turns);
      turns := turns + 1;
      OthersStayValid(b);
    }

    // ---- The store operations of a transport, each after the others had their turn ----

    method Begin(b: AttemptBudget, o: Id, fenceId: Id) returns (reply: Reply)
      requires Valid() && b.store == store && b.Valid()
      modifies b`active, this`caps, this`turns, store
      ensures Valid() && b.Valid() && Did(b, Op.Begin(o, fenceId), reply)
      ensures reply.Ok? ==> !store.db.stopped && IsOpen(store.db.fences, o) && Holds(store.db.fences, b.active, o)
    {
      hide Inv, Evolves, SysInv;
      var fate := Turn(b);
      ghost var between := store.db;
      SettleKeepsAll(between, b.active, Op.Begin(o, fenceId), fate, guarded);
      reply := b.BeginObservation(o, fenceId, fate);
      EvolvesTransitive(mark, between, store.db);
      SystemFollows(between, store.db, caps);
    }

    method Reserve(b: AttemptBudget, r: Reservation) returns (reply: Reply)
      requires Valid() && b.store == store && b.Valid()
      modifies this`caps, this`turns, store
      ensures Valid() && b.Valid() && Did(b, Op.Reserve(r), reply)
      ensures reply.Ok? ==>
        r.attemptId in store.db.attempts && store.db.attempts[r.attemptId] == Attempt(r, Reserved, None)
    {
      hide Inv, Evolves, SysInv, Exec, Settle;
      var fate := Turn(b);
      ghost var between := store.db;
      ReserveRow(between, b.active, r, fate);
      SettleKeepsAll(between, b.active, Op.Reserve(r), fate, guarded);
      reply := b.Reserve(r, fate);
      EvolvesTransitive(mark, between, store.db);
      SystemFollows(between, store.db, caps);
    }

    method Start(b: AttemptBudget, r: Reservation) returns (reply: Reply)
      requires Valid() && b.store == store && b.Valid() && Bound(store.db, r)
      modifies this`caps, this`turns, store
      ensures Valid() && b.Valid() && Did(b, Op.Start(r), reply)
      ensures Bound(store.db, r)
      ensures Excludes(r.attemptId) ==>
        var row := old(store.db.attempts)[r.attemptId];
        && store.db.attempts[r.attemptId] in {row, row.(state := InFlight)}
        && (reply.Ok? ==> row.state == Reserved)
      ensures reply.Ok? ==> InFlightAs(store.db, r)
    {
      hide Inv, Evolves, SysInv, Exec, Settle;
      var fate := Turn(b);
      ghost var between := store.db;
      BoundOutlasts(old(store.db), between, r);
      StartRow(between, b.active, r, fate);
      SettleKeepsAll(between, b.active, Op.Start(r), fate, guarded);
      reply := b.Start(r, fate);
      EvolvesTransitive(mark, between, store.db);
      SystemFollows(between, store.db, caps);
    }

    method Finish(b: AttemptBudget, r: Reservation, outcome: Outcome) returns (reply: Reply)
      requires Valid() && b.store == store && b.Valid() && Bound(store.db, r)
      modifies this`caps, this`turns, store
      ensures Valid() && b.Valid() && Did(b, Op.Finish(r, outcome), reply)
      ensures Bound(store.db, r)
      ensures Excludes(r.attemptId) ==>
        store.db.attempts[r.attemptId] in {old(store.db.attempts)[r.attemptId], Attempt(r, Terminal, Some(outcome))}
      ensures reply.Ok? ==> store.db.attempts[r.attemptId] == Attempt(r, Terminal, Some(outcome))
    {
      hide Inv, Evolves, SysInv, Exec, Settle;
      var fate := Turn(b);
      ghost var between := store.db;
      BoundOutlasts(old(store.db), between, r);
      FinishRow(between, b.active, r, outcome, fate);
      SettleKeepsAll(between, b.active, Op.Finish(r, outcome), fate, guarded);
      reply := b.Finish(r, outcome, fate);
      EvolvesTransitive(mark, between, store.db);
      SystemFollows(between, store.db, caps);
    }

    method AssertActive(b: AttemptBudget, o: Id, ghost r: Reservation) returns (reply: Reply)
      requires Valid() && b.store == store && b.Valid() && Bound(store.db, r)
      modifies this`caps, this`turns, store
      ensures Valid() && b.Valid() && Did(b, Op.AssertActive(o), reply)
      ensures Bound(store.db, r)
      ensures Excludes(r.attemptId) ==> store.db.attempts[r.attemptId] == old(store.db.attempts)[r.attemptId]
      ensures reply.Ok? ==> !store.db.stopped && IsOpen(store.db.fences, o) && Holds(store.db.fences, b.active, o)
    {
      hide Inv, Evolves, SysInv;
      var fate := Turn(b);
      BoundOutlasts(old(store.db), store.db, r);
      reply := b.AssertActiveObservation(Some(o), fate);
    }

    method Stop(b: AttemptBudget, reason: string) returns (reply: Reply)
      requires Valid() && b.store == store && b.Valid()
      modifies this`caps, this`turns, store
      ensures Valid() && b.Valid() && Did(b, Op.Stop(reason), reply) && Evolves(old(store.db), store.db)
      ensures forall id | Excludes(id) && id in old(store.db.attempts) ::
        id in store.db.attempts && store.db.attempts[id] == old(store.db.attempts)[id]
      ensures forall o | NoForeignClose(o) && IsOpen(old(store.db.fences), o) :: IsOpen(store.db.fences, o)
      ensures reply.Ok? ==> store.db.stopped
    {
      hide Inv, Evolves, SysInv;
      var fate := Turn(b);
      ghost var between := store.db;
      SettleKeepsAll(between, b.active, Op.Stop(reason), fate, guarded);
      reply := b.Stop(reason, fate);
      EvolvesTransitive(mark, between, store.db);
      EvolvesTransitive(old(store.db), between, store.db);
      SystemFollows(between, store.db, caps);
    }

    method EnsureRecoverable(b: AttemptBudget) returns (reply: Reply)
      requires Valid() && b.store == store && b.Valid()
      modifies this`caps, this`turns, store
      ensures Valid() && b.Valid() && Did(b, Op.EnsureRecoverable, reply)
      ensures reply.Ok? && b.active.None? ==> !AnyOpen(store.db) && !AnyPending(store.db) && !store.db.stopped
    {
      hide Inv, Evolves, SysInv;
      var fate := Turn(b);
      ghost var between := store.db;
      SettleKeepsAll(between, b.active, Op.EnsureRecoverable, fate, guarded);
      reply := b.EnsureRecoverable(fate);
      EvolvesTransitive(mark, between, store.db);
      SystemFollows(between, store.db, caps);
    }

    /** What a reader gets is a sound ledger on the run's history: it grew from every ledger marked earlier. */
    method Snapshot(b: AttemptBudget) returns (state: Option<Ledger>)
      requires Valid() && b.store == store && b.Valid()
      modifies this`caps, this`turns, store
      ensures Valid() && b.Valid()
      ensures System(store.db, caps) == old(Met()) && turns == old(turns) + 1 && Evolves(old(store.db), store.db)
      ensures state == if fates(old(turns)) == Acknowledged then Some(store.db) else None
      ensures state.Some? ==> Inv(state.value) && Evolves(mark, state.value) && Evolves(old(store.db), state.value)
      ensures forall o | NoForeignClose(o) && IsOpen(old(store.db.fences), o) :: IsOpen(store.db.fences, o)
    {
      hide Inv, Evolves, SysInv;
      var fate := Turn(b);
      state := b.Snapshot(fate);
      assert Inv(store.db);
    }

    /** close_safe_observation: what the ledger looked like if the close took effect. */
    method Close(b: AttemptBudget, o: Id, summary: Id) returns (reply: Reply, ghost before: Ledger)
      requires Valid() && b.store == store && b.Valid() && o !in guarded
      modifies b`active, this`caps, this`turns, store
      ensures Valid() && b.Valid() && before == old(Met()).db && Inv(before)
      ensures Did(b, Op.Close(o, summary), reply) && Evolves(old(store.db), before) && Evolves(old(store.db), store.db)
      ensures NoForeignClose(o) && IsOpen(old(store.db.fences), o) && Holds(old(store.db.fences), old(b.active), o) ==>
        (reply.Ok? <==> Acked(old(turns), 1) && !before.stopped && !AnyPending(before))
      ensures NoForeignClose(o) && IsOpen(old(store.db.fences), o) && !IsOpen(store.db.fences, o) ==>
        && !before.stopped && !AnyPending(before)
        && o in store.db.fences && store.db.fences[o].summary == Some(summary)
      ensures reply.Ok? ==> !IsOpen(store.db.fences, o)
    {
      hide Inv, Evolves, SysInv, Exec, Settle, AnyPending;
      var fate := Turn(b);
      before := store.db;
      assert Inv(before);
      CloseRow(before, b.active, o, summary, fate);
      HeldClose(before, b.active, o, summary, fate);
      SettleKeepsAll(before, b.active, Op.Close(o, summary), fate, guarded);
      reply := b.CloseSafeObservation(o, summary, fate);
      EvolvesTransitive(mark, before, store.db);
      EvolvesTransitive(old(store.db), before, store.db);
      SystemFollows(before, store.db, caps);
    }
  }
}
