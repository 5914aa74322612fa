/** One whole observation that ends with its fence closed: a planner answer in time, a request the policy sends to
    review, both captures correlated, the held backend capture admitted, and the close acknowledged. */
module SuccessfulRun {
  import opened Options
  import opened Ledger
  import opened LedgerInvariant
  import opened LedgerRuns
  import opened LedgerExact
  import opened AttemptBudgetController
  import opened EvaluationWorld
  import opened BoundedProvider
  import opened RoleAdmission
  import opened Composition
  import HttpPrimary
  import CaptureAdmission

  /** The identifiers of one planner attempt. */
  datatype Ids = Ids(o: Id, fenceId: Id, attemptId: Id, correlationId: Id, model: Id, payload: Id, schema: Id,
                     request: Id, prompt: Id, origin: Id, logical: Id, path: Id, body: Id)

  function Asking(i: Ids): Proposal {
    var x := Exchange(true, Some(i.payload), i.model, i.request, i.prompt, Response(200, Body(1, Some(i.model))));
    Proposal(i.payload, i.schema, [RoleAdmission.Call(x, i.attemptId, i.correlationId, true)], None, true)
  }

  function ContractOf(i: Ids): HttpPrimary.Contract { HttpPrimary.Contract(i.body, 1, i.body) }

  /** Client, server and response facts of that attempt agree. */
  function Seen(i: Ids): HttpPrimary.Primary {
    var wire := HttpPrimary.Wire(i.request, 1, 9, i.path, i.origin, i.logical, i.body, 1);
    var headers := HttpPrimary.Headers(i.origin, true, 9, true, false);
    var receipt := HttpPrimary.Receipt(headers, true, i.request, 9, 9, i.path);
    HttpPrimary.Primary(HttpPrimary.Captured([], Some(wire), ContractOf(i), true), [receipt], 1, [])
  }

  function Nothing(i: Ids): HttpPrimary.Primary {
    HttpPrimary.Primary(HttpPrimary.Captured([], None, ContractOf(i), false), [], 0, [])
  }

  function Script(i: Ids, t: CaptureAdmission.Token): Stages {
    Stages(false, [Asking(i)], Finished(GraphResult(true, true, false)), true, false, false,
           true, true, true, true, false,
           Seen(i), Nothing(i), [HttpPrimary.Lease(i.attemptId, true, i.origin, i.logical)],
           [HttpPrimary.Facts(i.attemptId, ContractOf(i))], CaptureAdmission.HeldCapture(t),
           CaptureAdmission.HeldExpected(t), true, true)
  }

  function AttemptOf(i: Ids): Reservation { FirstAttempt(Asking(i), i.o, Planner, i.model) }

  lemma CapturesAgree(i: Ids, t: CaptureAdmission.Token, db: Ledger)
    requires db.attempts == map[i.attemptId := Attempt(AttemptOf(i), Terminal, Some(ResponseObserved))]
    ensures Admitted(Script(i, t), PlannerView(None, []), i.o, db)
    ensures HttpPrimary.Current(db, i.o, Judge) == {}
  {
    hide CaptureAdmission.Admit;
    var x := Script(i, t);
    var s := HttpPrimary.Snapshot(db, x.leases, x.facts);
    CaptureAdmission.HeldIsAdmitted(t);
    assert HttpPrimary.Current(db, i.o, Planner) == {i.attemptId};
    assert HttpPrimary.LeasesOf(x.leases, i.attemptId) == x.leases;
    assert HttpPrimary.FactsOf(x.facts, i.attemptId) == x.facts;
    assert HttpPrimary.Exchanged(SupervisorEvidence(x, PlannerView(None, [])), s, i.attemptId);
  }

  lemma SucceedsHere(s: Supervisor, i: Ids, t: CaptureAdmission.Token)
    requires s.world.store.db == Create(Limits(1, 1, 1)) && s.world.clock(18) == s.world.clock(0) && s.world.ticks == 0
    requires s.observation == i.o && s.model == i.model && s.deadlines == PLAN
    ensures s.Succeeds(i.fenceId, Script(i, t))
  {
    hide CaptureAdmission.Admit, Admitted;
    var db := s.world.store.db;
    var served := ServedLedger(db, i.o, i.fenceId, AttemptOf(i));
    assert served.attempts == map[i.attemptId := Attempt(AttemptOf(i), Terminal, Some(ResponseObserved))];
    assert Used(db, Planner) == {};
    CapturesAgree(i, t, served);
    assert s.Smooth(Script(i, t), served);
  }

  /** A world in which nobody else acts, every commit is acknowledged, and the clock stands still. */
  method SetUp(i: Ids) returns (s: Supervisor)
    ensures fresh(s) && fresh(s.budget) && fresh(s.world) && fresh(s.world.store)
    ensures s.Base() && s.Fresh() && s.budget.active.None? && s.world.turns == 0 && s.world.ticks == 0
    ensures s.observation == i.o && s.model == i.model && s.deadlines == PLAN
    ensures s.world.store.db == Create(Limits(1, 1, 1))
    ensures forall k: nat :: s.world.clock(k) == 0.0 && s.world.fates(k) == Fate.Acknowledged && s.world.others(k) == []
  {
    hide Inv, Evolves, SysInv, Create;
    var limits := Limits(1, 1, 1);
    var store := new Store(limits);
    var world := new World(store, _ => 0.0, _ => Fate.Acknowledged, _ => []);
    var budget := new AttemptBudget(store);
    s := new Supervisor(budget, world, i.o, PLAN, i.model, i.body);
  }

  method HeldObservationCloses(i: Ids, t: CaptureAdmission.Token, summary: Id) returns (ending: Ending, db: Ledger)
    ensures ending.Reported? && ending.close == FenceClose.Acknowledged && ending.summary.error.None?
    ensures i.o in db.fences && db.fences[i.o].state == Closed && db.fences[i.o].summary == Some(summary)
  {
    hide Inv, Evolves, SysInv, Script, Create;
    hide Supervisor.Base, Supervisor.Succeeds, Supervisor.Backed, Supervisor.Decided;
    hide Openable, Escapes, Supervisor.Told, AnyPending;
    var s := SetUp(i);
    var x := Script(i, t);
    SucceedsHere(s, i, t);
    Secluded(s, i, t);
    ghost var atSnapshot, atClose;
    ending, atSnapshot, atClose := s.RunObservation(i.fenceId, summary, x);
    NoError(s, ending, x, atSnapshot);
    db := s.world.store.db;
  }

  lemma Secluded(s: Supervisor, i: Ids, t: CaptureAdmission.Token)
    requires forall k: nat :: s.world.fates(k) == Fate.Acknowledged && s.world.others(k) == []
    ensures Private(Script(i, t).proposals, s.world) && s.world.Calm(s.world.turns, 10)
  {
  }

  lemma NoError(s: Supervisor, ending: Ending, x: Stages, atSnapshot: Ledger)
    requires s.Told(ending, x, atSnapshot) && ending.Reported? && ending.close == FenceClose.Acknowledged
    ensures ending.summary.error.None?
  {
  }
}
