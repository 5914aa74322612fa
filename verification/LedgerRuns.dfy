/** Any number of controllers on one durable ledger: arbitrary interleavings of
    their calls, crashes, fresh attachments and lost acknowledgements. */
module LedgerRuns {
  import opened Options
  import opened Ledger
  import opened LedgerInvariant

  datatype Op =
    | Begin(o: Id, fenceId: Id)
    | Join(o: Id, fenceId: Id)
    | Close(o: Id, summary: Id)
    | AssertActive(o: Id)
    | Reserve(r: Reservation)
    | Start(r: Reservation)
    | Finish(r: Reservation, outcome: Outcome)
    | Stop(reason: string)
    | ReserveMcp(o: Id, proposal: Id, reservationId: Id)
    | AdmitMcp(o: Id, proposal: Id)
    | FinishMcp(o: Id, mcpOutcome: McpOutcome)
    | EnsureRecoverable

  function Exec(db: Ledger, cap: Option<Capability>, op: Op): Txn {
    match op
    case Begin(o, f) => BeginTxn(db, cap, o, f)
    case Join(o, f) => JoinTxn(db, cap, o, f)
    case Close(o, summary) => CloseTxn(db, cap, o, summary)
    case AssertActive(o) => AssertActiveTxn(db, cap, o)
    case Reserve(r) => ReserveTxn(db, cap, r)
    case Start(r) => StartTxn(db, cap, r)
    case Finish(r, outcome) => FinishTxn(db, r, outcome)
    case Stop(reason) => StopTxn(db, reason)
    case ReserveMcp(o, p, id) => ReserveMcpTxn(db, cap, o, p, id)
    case AdmitMcp(o, p) => AdmitMcpTxn(db, cap, o, p)
    case FinishMcp(o, outcome) => FinishMcpTxn(db, o, outcome)
    case EnsureRecoverable => EnsureRecoverableTxn(db, cap)
  }

  /** The local capability after an acknowledged call. */
  function CapAfter(cap: Option<Capability>, op: Op): Option<Capability> {
    match op
    case Begin(o, f) => if cap.Some? then cap else Some(Capability(o, f))
    case Join(o, f) => Some(Capability(o, f))
    case Close(_, _) => None
    case _ => cap
  }

  datatype Event =
    | Attach(pid: nat)                     // a fresh process: it knows nothing
    | Crash(pid: nat)                      // its local capability is lost
    | Call(pid: nat, op: Op, fate: Fate)

  datatype System = System(db: Ledger, caps: map<nat, Option<Capability>>)

  function Next(s: System, e: Event): System {
    match e
    case Attach(pid) => s.(caps := s.caps[pid := None])
    case Crash(pid) => s.(caps := s.caps - {pid})
    case Call(pid, op, fate) =>
      if pid !in s.caps then s
      else
        var (db', reply) := Settle(s.db, Exec(s.db, s.caps[pid], op), fate);
        System(db', if reply.Ok? then s.caps[pid := CapAfter(s.caps[pid], op)] else s.caps)
  }

  function Run(s: System, es: seq<Event>): System
    decreases |es|
  {
    if es == [] then s else Run(Next(s, es[0]), es[1..])
  }

  ghost predicate SysInv(s: System) {
    && Inv(s.db)
    && forall pid | pid in s.caps && s.caps[pid].Some? :: Holds(s.db.fences, s.caps[pid], s.caps[pid].value.observation)
  }

  // ---- The invariant over every run ----

  lemma ExecGood(db: Ledger, cap: Option<Capability>, op: Op)
    requires Inv(db)
    ensures TxnGood(db, Exec(db, cap, op))
  {
    match op
    case Begin(o, f) => BeginGood(db, cap, o, f);
    case Join(o, f) =>
    case Close(o, summary) => CloseGood(db, cap, o, summary);
    case AssertActive(o) =>
    case Reserve(r) => ReserveGood(db, cap, r);
    case Start(r) => StartGood(db, cap, r);
    case Finish(r, outcome) => FinishGood(db, r, outcome);
    case Stop(reason) => HaltGood(db, reason);
    case ReserveMcp(o, p, id) => ReserveMcpGood(db, cap, o, p, id);
    case AdmitMcp(o, p) => AdmitMcpGood(db, cap, o, p);
    case FinishMcp(o, outcome) => FinishMcpGood(db, o, outcome);
    case EnsureRecoverable => EnsureRecoverableGood(db, cap);
  }

  /** An acknowledged Begin, Join or Close leaves a capability that names a real fence row. */
  lemma CapabilityIsReal(db: Ledger, cap: Option<Capability>, op: Op)
    requires cap.Some? ==> Holds(db.fences, cap, cap.value.observation)
    requires Exec(db, cap, op).Commit? && Evolves(db, Exec(db, cap, op).db)
    ensures var cap' := CapAfter(cap, op);
      cap'.Some? ==> Holds(Exec(db, cap, op).db.fences, cap', cap'.value.observation)
  {
  }

  lemma StepGood(s: System, e: Event)
    requires SysInv(s)
    ensures SysInv(Next(s, e)) && Evolves(s.db, Next(s, e).db)
  {
    if e.Call? && e.pid in s.caps {
      var txn := Exec(s.db, s.caps[e.pid], e.op);
      ExecGood(s.db, s.caps[e.pid], e.op);
      if txn.Commit? { CapabilityIsReal(s.db, s.caps[e.pid], e.op); }
      var s' := Next(s, e);
      forall pid | pid in s'.caps && s'.caps[pid].Some?
        ensures Holds(s'.db.fences, s'.caps[pid], s'.caps[pid].value.observation)
      {
        if s'.caps != s.caps && pid == e.pid {
        } else {
          assert Holds(s.db.fences, s.caps[pid], s.caps[pid].value.observation);
        }
      }
    }
  }

  /** Over every interleaving of calls, crashes, attachments and lost
      acknowledgements the invariant holds and the durable history only grows. */
  lemma {:induction false} RunGood(s: System, es: seq<Event>)
    requires SysInv(s)
    ensures SysInv(Run(s, es)) && Evolves(s.db, Run(s, es).db)
    decreases |es|
  {
    if es != [] {
      StepGood(s, es[0]);
      RunGood(Next(s, es[0]), es[1..]);
      EvolvesTransitive(s.db, Next(s, es[0]).db, Run(s, es).db);
    }
  }

  lemma {:induction false} ReachableStates(limits: Limits, es: seq<Event>)
    ensures var s := Run(System(Create(limits), map[]), es);
      && SysInv(s)
      && (forall a, b | IsOpen(s.db.fences, a) && IsOpen(s.db.fences, b) :: a == b)
      && (forall pid | pid in s.caps && s.caps[pid].Some? ::
            var c := s.caps[pid].value; c.observation in s.db.fences && s.db.fences[c.observation].fenceId == c.fenceId)
      && (forall o, id | IsOpen(s.db.fences, o) && id in s.db.attempts && s.db.attempts[id].state != Terminal ::
            s.db.attempts[id].reservation.observation == o)
      && (forall o, m | IsOpen(s.db.fences, o) && m in s.db.mcp && s.db.mcp[m].state != McpTerminal :: m == o)
  {
    InitialInv(limits);
    RunGood(System(Create(limits), map[]), es);
    var s := Run(System(Create(limits), map[]), es);
    assert forall id | id in s.db.attempts && s.db.attempts[id].state != Terminal :: AttemptPending(s.db.attempts[id]);
    assert forall m | m in s.db.mcp && s.db.mcp[m].state != McpTerminal :: McpPending(s.db.mcp[m]);
  }

  // ---- Fail-closed restart ----

  predicate IsAdmission(op: Op) {
    op.Begin? || op.Reserve? || op.Start? || op.ReserveMcp? || op.AdmitMcp? || op.EnsureRecoverable?
  }

  /** An open fence refuses everyone who does not hold its capability, with no durable effect. */
  lemma OpenFenceExcludes(db: Ledger, cap: Option<Capability>, op: Op, o: Id)
    requires IsOpen(db.fences, o) && !Holds(db.fences, cap, o)
    requires IsAdmission(op)
    ensures Exec(db, cap, op).Rejected()
  {
  }

  ghost predicate ClosesAt(s: System, e: Event, o: Id) {
    && e.Call? && e.pid in s.caps && e.op.Close? && e.op.o == o && e.fate != NotCommitted
    && CloseTxn(s.db, s.caps[e.pid], o, e.op.summary).Commit?
  }

  /** Some close of o commits somewhere along the run. */
  ghost predicate CloseCommits(s: System, es: seq<Event>, o: Id)
    decreases |es|
  {
    es != [] && (ClosesAt(s, es[0], o) || CloseCommits(Next(s, es[0]), es[1..], o))
  }

  lemma FenceEffect(db: Ledger, cap: Option<Capability>, op: Op, o: Id)
    requires IsOpen(db.fences, o) && !Exec(db, cap, op).Rejected()
    ensures var txn := Exec(db, cap, op);
      IsOpen(txn.db.fences, o) <==> !(op.Close? && op.o == o)
  {
  }

  /** Exactly a committed close takes a fence out of OPEN. */
  lemma StepKeepsOpen(s: System, e: Event, o: Id)
    requires IsOpen(s.db.fences, o)
    ensures IsOpen(Next(s, e).db.fences, o) <==> !ClosesAt(s, e, o)
  {
    if e.Call? && e.pid in s.caps && !Exec(s.db, s.caps[e.pid], e.op).Rejected() {
      FenceEffect(s.db, s.caps[e.pid], e.op, o);
    }
  }

  lemma {:induction false} OpenUntilClosed(s: System, es: seq<Event>, o: Id)
    requires SysInv(s) && IsOpen(s.db.fences, o)
    ensures IsOpen(Run(s, es).db.fences, o) <==> !CloseCommits(s, es, o)
    decreases |es|
  {
    if es != [] {
      StepGood(s, es[0]);
      StepKeepsOpen(s, es[0], o);
      var s1 := Next(s, es[0]);
      if IsOpen(s1.db.fences, o) {
        OpenUntilClosed(s1, es[1..], o);
      } else {
        RunGood(s1, es[1..]);
        assert FenceEvolves(s1.db.fences[o], Run(s1, es[1..]).db.fences[o]);
      }
    }
  }

  /** A begin of o commits at this step. */
  predicate BeginsAt(s: System, e: Event, o: Id) {
    && e.Call? && e.pid in s.caps && s.caps[e.pid].None? && e.op.Begin? && e.op.o == o && e.fate != NotCommitted
    && BeginTxn(s.db, None, o, e.op.fenceId).Commit?
  }

  /** Exactly a committed begin makes a fence row appear, and it appears OPEN. */
  lemma StepAddsFence(s: System, e: Event, o: Id)
    requires o !in s.db.fences
    ensures o in Next(s, e).db.fences <==> BeginsAt(s, e, o)
    ensures BeginsAt(s, e, o) ==> Next(s, e).db.fences[o] == Fence(e.op.fenceId, Open, None)
  {
    if e.Call? && e.pid in s.caps {
      if e.op.Begin? { BeginAddsFence(s.db, s.caps[e.pid], e.op.o, e.op.fenceId, o); }
      else if !Exec(s.db, s.caps[e.pid], e.op).Rejected() { OthersAddNoFence(s.db, s.caps[e.pid], e.op, o); }
    }
    hide BeginTxn, CloseTxn, ReserveTxn, StartTxn, FinishTxn;
    hide ReserveMcpTxn, AdmitMcpTxn, FinishMcpTxn, EnsureRecoverableTxn;
  }

  lemma BeginAddsFence(db: Ledger, cap: Option<Capability>, o: Id, f: Id, x: Id)
    requires x !in db.fences
    ensures var txn := BeginTxn(db, cap, o, f);
      && (txn.Commit? && o == x && cap.None? ==> txn.db.fences == db.fences[o := Fence(f, Open, None)])
      && (!txn.Rejected() && !(txn.Commit? && o == x && cap.None?) ==> x !in txn.db.fences)
  {
  }

  lemma OthersAddNoFence(db: Ledger, cap: Option<Capability>, op: Op, x: Id)
    requires x !in db.fences && !op.Begin? && !Exec(db, cap, op).Rejected()
    ensures x !in Exec(db, cap, op).db.fences
  {
    hide FenceError, PriorError, TokenTaken, AnyUnsafe, AnyPending, AnyOpen, Holds, RoleAttempts;
  }

  /** Fences move only from absent through OPEN to CLOSED: a row found after a run began, OPEN, at one committed
      begin of the run and still bears the token of that begin. */
  lemma {:induction false} FenceHistory(s: System, es: seq<Event>, o: Id) returns (k: nat)
    requires SysInv(s) && o !in s.db.fences && o in Run(s, es).db.fences
    ensures k < |es| && BeginsAt(Run(s, es[..k]), es[k], o) && o !in Run(s, es[..k]).db.fences
    ensures o in Run(s, es[..k + 1]).db.fences
    ensures Run(s, es[..k + 1]).db.fences[o] == Fence(es[k].op.fenceId, Open, None)
    ensures Run(s, es).db.fences[o].fenceId == es[k].op.fenceId
    decreases |es|
  {
    var s1, rest := Next(s, es[0]), es[1..];
    StepGood(s, es[0]);
    StepAddsFence(s, es[0], o);
    if BeginsAt(s, es[0], o) {
      k := 0;
      assert es[..0] == [] && es[..1] == [es[0]] && [es[0]][1..] == [];
      RunGood(s1, rest);
      assert FenceEvolves(s1.db.fences[o], Run(s1, rest).db.fences[o]);
    } else {
      var j := FenceHistory(s1, rest, o);
      k := j + 1;
      RunPrefix(s, es, j);
      RunPrefix(s, es, j + 1);
    }
  }

  lemma RunPrefix(s: System, es: seq<Event>, j: nat)
    requires j < |es|
    ensures Run(s, es[..j + 1]) == Run(Next(s, es[0]), es[1..][..j])
  {
    assert es[..j + 1][1..] == es[1..][..j];
  }

  /** What a snapshot keeps telling truly: a stop and its reason, every terminal row, every closed fence and every used
      slot stand in every later ledger of the run. */
  lemma SnapshotOutlasts(s: System, es: seq<Event>)
    requires SysInv(s)
    ensures var now, later := s.db, Run(s, es).db;
      && (now.stopped ==> later.stopped && later.stopReason == now.stopReason)
      && (forall id | id in now.attempts && now.attempts[id].state == Terminal ::
            id in later.attempts && later.attempts[id] == now.attempts[id])
      && (forall o | o in now.mcp && now.mcp[o].state == McpTerminal :: o in later.mcp && later.mcp[o] == now.mcp[o])
      && (forall o | o in now.fences && now.fences[o].state == Closed ::
            o in later.fences && later.fences[o] == now.fences[o])
      && now.attempts.Keys <= later.attempts.Keys && now.observations <= later.observations
  {
    RunGood(s, es);
    var now, later := s.db, Run(s, es).db;
    forall id | id in now.attempts
      ensures id in later.attempts && AttemptEvolves(now.attempts[id], later.attempts[id])
    {
    }
    forall o | o in now.mcp ensures o in later.mcp && McpEvolves(now.mcp[o], later.mcp[o]) {}
    forall o | o in now.fences ensures o in later.fences && FenceEvolves(now.fences[o], later.fences[o]) {}
  }

  lemma BeginOpens(s: System, pid: nat, o: Id, f: Id, fate: Fate)
    requires SysInv(s) && pid in s.caps && s.caps[pid].None?
    requires BeginTxn(s.db, None, o, f).Commit? && fate != NotCommitted
    ensures var s1 := Next(s, Call(pid, Begin(o, f), fate));
      SysInv(s1) && IsOpen(s1.db.fences, o) && s1.db.fences[o].fenceId == f
  {
    StepGood(s, Call(pid, Begin(o, f), fate));
  }

  /** From the moment a Begin takes effect, acknowledged or not, every admission
      call by a controller without that very capability is refused and writes
      nothing, in every later state, until a close of that fence commits. */
  lemma FailClosedRestart(s: System, pid: nat, o: Id, f: Id, fate: Fate, es: seq<Event>, q: nat, op: Op)
    requires SysInv(s) && pid in s.caps && s.caps[pid].None?
    requires BeginTxn(s.db, None, o, f).Commit? && fate != NotCommitted
    requires var s1 := Next(s, Call(pid, Begin(o, f), fate));
      && !CloseCommits(s1, es, o)
      && q in Run(s1, es).caps && Run(s1, es).caps[q] != Some(Capability(o, f))
    requires IsAdmission(op)
    ensures var s2 := Run(Next(s, Call(pid, Begin(o, f), fate)), es);
      && IsOpen(s2.db.fences, o) && s2.db.fences[o].fenceId == f
      && Exec(s2.db, s2.caps[q], op).Rejected()
      && forall later :: Next(s2, Call(q, op, later)) == s2
  {
    var s1 := Next(s, Call(pid, Begin(o, f), fate));
    BeginOpens(s, pid, o, f, fate);
    OpenUntilClosed(s1, es, o);
    RunGood(s1, es);
    var s2 := Run(s1, es);
    assert FenceEvolves(s1.db.fences[o], s2.db.fences[o]);
    OpenFenceExcludes(s2.db, s2.caps[q], op, o);
  }

  /** The fence (o, f) is open and no running controller knows its capability. */
  ghost predicate Orphaned(s: System, o: Id, f: Id) {
    && IsOpen(s.db.fences, o) && s.db.fences[o].fenceId == f
    && forall pid | pid in s.caps :: s.caps[pid] != Some(Capability(o, f))
  }

  ghost predicate NoJoin(es: seq<Event>, o: Id, f: Id) {
    forall i | 0 <= i < |es| :: !(es[i].Call? && es[i].op == Join(o, f))
  }

  lemma StepKeepsOrphan(s: System, e: Event, o: Id, f: Id)
    requires SysInv(s) && Orphaned(s, o, f)
    requires !(e.Call? && e.op == Join(o, f))
    ensures Orphaned(Next(s, e), o, f)
  {
    StepGood(s, e);
    StepKeepsOpen(s, e, o);
    var s' := Next(s, e);
    assert FenceEvolves(s.db.fences[o], s'.db.fences[o]);
    if e.Call? && e.pid in s.caps && e.op.Begin? {
      OpenFenceExcludes(s.db, s.caps[e.pid], e.op, o);
    }
  }

  /** Once nobody knows the capability of an open fence (its holder crashed, or
      the acknowledgement of Begin was lost), no later run that does not guess the
      fence token can admit anything, or close the fence, or be declared recoverable. */
  lemma {:induction false} OrphanLocksRun(s: System, es: seq<Event>, o: Id, f: Id, q: nat, op: Op)
    requires SysInv(s) && Orphaned(s, o, f) && NoJoin(es, o, f)
    requires q in Run(s, es).caps && (IsAdmission(op) || op.Close?)
    ensures var s' := Run(s, es);
      Orphaned(s', o, f) && Exec(s'.db, s'.caps[q], op).Rejected()
    decreases |es|
  {
    if es == [] {
      if IsAdmission(op) { OpenFenceExcludes(s.db, s.caps[q], op, o); }
    } else {
      StepGood(s, es[0]);
      assert !(es[0].Call? && es[0].op == Join(o, f));
      StepKeepsOrphan(s, es[0], o, f);
      assert forall i | 0 <= i < |es[1..]| :: es[1..][i] == es[i + 1];
      OrphanLocksRun(Next(s, es[0]), es[1..], o, f, q, op);
    }
  }

  /** A Begin that committed without its acknowledgement orphans the fence at once. */
  lemma LostBeginAckOrphans(s: System, pid: nat, o: Id, f: Id)
    requires SysInv(s) && pid in s.caps && s.caps[pid].None?
    requires BeginTxn(s.db, None, o, f).Commit?
    ensures Orphaned(Next(s, Call(pid, Begin(o, f), AckLost)), o, f)
  {
    forall q | q in s.caps ensures s.caps[q] != Some(Capability(o, f)) {
      assert s.caps[q].Some? ==> Holds(s.db.fences, s.caps[q], s.caps[q].value.observation);
    }
  }

  // ---- Stop ----

  lemma StopRefuses(db: Ledger, cap: Option<Capability>, op: Op)
    requires Inv(db) && db.stopped
    requires IsAdmission(op) || op.Join? || op.Close?
    ensures var txn := Exec(db, cap, op); !txn.Commit? && (txn.CommitThenRaise? ==> txn.db == db)
  {
  }

  function PendingAttempts(attempts: map<Id, Attempt>): set<Id> {
    set id | id in attempts && AttemptPending(attempts[id])
  }
  function PendingMcp(mcp: map<Id, McpCall>): set<Id> { set o | o in mcp && McpPending(mcp[o]) }
  function PendingCount(db: Ledger): nat { |PendingAttempts(db.attempts)| + |PendingMcp(db.mcp)| }

  /** After a stop the only writes left are completions, each removing one pending row. */
  ghost predicate Completes(db: Ledger, db': Ledger) {
    && db'.attempts.Keys == db.attempts.Keys && db'.mcp.Keys == db.mcp.Keys
    && db'.fences == db.fences && db'.stopped == db.stopped && db'.stopReason == db.stopReason
    && PendingCount(db') + 1 == PendingCount(db)
  }

  lemma FinishDrains(db: Ledger, r: Reservation, outcome: Outcome)
    requires db.stopped && db.stopReason.Some? && FinishTxn(db, r, outcome).Commit?
    ensures Completes(db, FinishTxn(db, r, outcome).db)
  {
    var db' := FinishTxn(db, r, outcome).db;
    assert PendingAttempts(db'.attempts) == PendingAttempts(db.attempts) - {r.attemptId};
    assert r.attemptId in PendingAttempts(db.attempts);
  }

  lemma FinishMcpDrains(db: Ledger, o: Id, outcome: McpOutcome)
    requires db.stopped && db.stopReason.Some? && FinishMcpTxn(db, o, outcome).Commit?
    ensures Completes(db, FinishMcpTxn(db, o, outcome).db)
  {
    var db' := FinishMcpTxn(db, o, outcome).db;
    assert PendingMcp(db'.mcp) == PendingMcp(db.mcp) - {o};
    assert o in PendingMcp(db.mcp);
  }

  lemma StoppedStep(s: System, e: Event)
    requires SysInv(s) && s.db.stopped
    ensures Next(s, e).db != s.db ==> (e.op.Finish? || e.op.FinishMcp?) && Completes(s.db, Next(s, e).db)
  {
    if e.Call? && e.pid in s.caps {
      var cap := s.caps[e.pid];
      match e.op
      case Finish(r, outcome) => if FinishTxn(s.db, r, outcome).Commit? { FinishDrains(s.db, r, outcome); }
      case FinishMcp(o, outcome) => if FinishMcpTxn(s.db, o, outcome).Commit? { FinishMcpDrains(s.db, o, outcome); }
      case Stop(_) =>
      case AssertActive(_) =>
      case _ => StopRefuses(s.db, cap, e.op);
    }
  }

  /** The number of events of the run that change the durable state. */
  function Writes(s: System, es: seq<Event>): nat
    decreases |es|
  {
    if es == [] then 0
    else (if Next(s, es[0]).db != s.db then 1 else 0) + Writes(Next(s, es[0]), es[1..])
  }

  /** Stop is absorbing, its first reason is final, and every run from a stopped
      state drains: writes made plus rows still pending equal the rows pending at the start. */
  lemma {:induction false} StoppedRunDrains(s: System, es: seq<Event>)
    requires SysInv(s) && s.db.stopped
    ensures var s' := Run(s, es);
      && s'.db.stopped && s'.db.stopReason == s.db.stopReason
      && s'.db.attempts.Keys == s.db.attempts.Keys && s'.db.mcp.Keys == s.db.mcp.Keys && s'.db.fences == s.db.fences
      && Writes(s, es) + PendingCount(s'.db) == PendingCount(s.db)
    decreases |es|
  {
    if es != [] {
      StepGood(s, es[0]);
      StoppedStep(s, es[0]);
      StoppedRunDrains(Next(s, es[0]), es[1..]);
    }
  }

  // ---- Outcomes, closing and rejections ----

  /** In an unstopped state every known outcome is safe, so the outcome tests of
      close_safe_observation say no more than "nothing is pending". */
  lemma UncertaintyImpliesStop(db: Ledger)
    requires Inv(db) && !db.stopped
    ensures AnyUnsafe(db) <==> AnyPending(db)
    ensures !AnyPending(db) ==>
      && (forall id | id in db.attempts :: KnownCompletion(db.attempts[id]))
      && (forall o | o in db.mcp :: db.mcp[o].outcome == Some(ClientResponseObserved))
  {
    forall id | id in db.attempts
      ensures UnsafeAttempt(db.attempts[id]) <==> AttemptPending(db.attempts[id])
      ensures !AttemptPending(db.attempts[id]) ==> KnownCompletion(db.attempts[id])
    {
      assert AttemptSound(db.observations, db.stopped, id, db.attempts[id]);
    }
    assert forall o | o in db.mcp :: UnsafeMcp(db.mcp[o]) <==> McpPending(db.mcp[o]);
    if AnyUnsafe(db) {
      if id :| id in db.attempts && UnsafeAttempt(db.attempts[id]) {
        assert AttemptPending(db.attempts[id]);
      }
    }
  }

  /** When exactly a safe close is granted. */
  lemma CloseExactly(db: Ledger, cap: Option<Capability>, o: Id, summary: Id)
    requires Inv(db)
    ensures CloseTxn(db, cap, o, summary).Commit? <==>
      !db.stopped && IsOpen(db.fences, o) && Holds(db.fences, cap, o) && !AnyPending(db)
  {
    if !db.stopped { UncertaintyImpliesStop(db); }
  }

  /** A closed observation can still be reserved for: the fence is no condition, only that no other one is open. */
  lemma ReserveAfterClose(db: Ledger, cap: Option<Capability>, r: Reservation)
    requires Inv(db) && r.observation in db.fences && db.fences[r.observation].state == Closed
    ensures ReserveTxn(db, cap, r).Commit? <==>
      && r.retry <= 1 && (r.retry == 0 <==> r.retryReason.None?)
      && !db.stopped && !AnyOpen(db) && PriorError(db, r).None? && !TokenTaken(db, r)
      && |RoleAttempts(db.attempts, r.role)| < db.limits.For(r.role)
  {
    hide PriorError, TokenTaken, RoleAttempts;
    if AnyOpen(db) {
      assert FenceError(db, cap, r.observation).Some?;
    }
  }

  /** One that happens: begun, closed, and then reserved for by a controller that never joined it. */
  lemma ReservedAfterClose(limits: Limits, o: Id, fenceId: Id, summary: Id, r: Reservation)
    requires limits.Valid() && limits.For(r.role) > 0
    requires r.observation == o && r.retry == 0 && r.retryReason.None?
    ensures BeginTxn(Create(limits), None, o, fenceId).Commit?
    ensures var begun := BeginTxn(Create(limits), None, o, fenceId).db;
      && CloseTxn(begun, Some(Capability(o, fenceId)), o, summary).Commit?
      && var closed := CloseTxn(begun, Some(Capability(o, fenceId)), o, summary).db;
      && closed.fences[o].state == Closed && ReserveTxn(closed, None, r).Commit?
  {
    var begun := BeginTxn(Create(limits), None, o, fenceId).db;
    var closed := CloseTxn(begun, Some(Capability(o, fenceId)), o, summary).db;
    assert RoleAttempts(closed.attempts, r.role) == {};
  }

  /** The three refusals that persist a stop: a role budget, the observation
      budget, or pending custody found at the restart gate. */
  datatype Cause = RoleBudget | ObservationBudget | PendingCustody {
    function Reason(): string {
      match this
      case RoleBudget => "ROLE_BUDGET_EXHAUSTED"
      case ObservationBudget => "OBSERVATION_BUDGET_EXHAUSTED"
      case PendingCustody => "UNRESOLVED_PENDING_ATTEMPT"
    }
  }

  /** The observation a call would count. */
  function Counted(op: Op): Option<Id> {
    match op
    case Reserve(r) => Some(r.observation)
    case Begin(o, _) => Some(o)
    case ReserveMcp(o, _, _) => Some(o)
    case _ => None
  }

  ghost predicate StopCause(db: Ledger, op: Op, cause: Cause) {
    match cause
    case RoleBudget => op.Reserve? && |RoleAttempts(db.attempts, op.r.role)| >= db.limits.For(op.r.role)
    case ObservationBudget =>
      Counted(op).Some? && Counted(op).value !in db.observations && |db.observations| >= db.limits.observations
    case PendingCustody => op.EnsureRecoverable? && AnyPending(db)
  }

  lemma RefusalWrites(db: Ledger, cap: Option<Capability>, op: Op) returns (cause: Cause)
    requires Exec(db, cap, op).CommitThenRaise?
    ensures Exec(db, cap, op).db == Halt(db, cause.Reason()) && StopCause(db, op, cause)
  {
    hide FenceError, PriorError, TokenTaken, Bound, AnyUnsafe, AnyPending, AnyOpen, IsOpen, Holds, RoleAttempts;
    match op
    case Reserve(r) =>
      cause := if |RoleAttempts(db.attempts, r.role)| >= db.limits.For(r.role) then RoleBudget else ObservationBudget;
    case EnsureRecoverable => cause := PendingCustody;
    case _ => cause := ObservationBudget;
  }

  /** A refused call writes nothing, except that three refusals persist a stop,
      and those touch only the stop fields. */
  lemma RefusalFrame(db: Ledger, cap: Option<Capability>, op: Op, fate: Fate)
    requires !Exec(db, cap, op).Commit?
    ensures var (db', reply) := Settle(db, Exec(db, cap, op), fate);
      && reply.Err?
      && (db' == db || exists cause :: StopCause(db, op, cause) && db' == Halt(db, cause.Reason()))
  {
    if Exec(db, cap, op).CommitThenRaise? {
      var cause := RefusalWrites(db, cap, op);
    }
    hide Exec;
  }

  /** Every retry row has exactly one first-attempt sibling; it ended safely and
      carries the same model, request, prompt and schema. */
  lemma RetryHasUniqueSibling(db: Ledger, id: Id)
    requires Inv(db) && id in db.attempts && db.attempts[id].reservation.retry == 1
    ensures exists p :: (
      && p in db.attempts && Sibling(db.attempts[id].reservation, db.attempts[p])
      && forall q | q in db.attempts && Sibling(db.attempts[id].reservation, db.attempts[q]) :: q == p)
  {
    assert HasSibling(db.attempts, db.attempts[id].reservation);
    var p :| p in db.attempts && Sibling(db.attempts[id].reservation, db.attempts[p]);
    forall q | q in db.attempts && Sibling(db.attempts[id].reservation, db.attempts[q]) ensures q == p {
      assert SameSlot(db.attempts[p].reservation, db.attempts[q].reservation);
    }
  }

  // ---- Capacity by counting ----

  /** A set that maps injectively into t is no larger than t. */
  lemma {:induction false} InjectionBound(s: set<Id>, t: set<Id>, f: Id -> Id)
    requires forall x | x in s :: f(x) in t
    requires forall x, y | x in s && y in s && f(x) == f(y) :: x == y
    ensures |s| <= |t|
    decreases |s|
  {
    if s != {} {
      var x :| x in s;
      InjectionBound(s - {x}, t - {f(x)}, f);
    }
  }

  function RoleRetryAttempts(attempts: map<Id, Attempt>, role: Role, retry: nat): set<Id> {
    set id | id in attempts && attempts[id].reservation.role == role && attempts[id].reservation.retry == retry
  }

  lemma RetryLevelBound(db: Ledger, role: Role, retry: nat)
    requires Inv(db)
    ensures |RoleRetryAttempts(db.attempts, role, retry)| <= |db.observations|
  {
    var s := RoleRetryAttempts(db.attempts, role, retry);
    var f := (id: Id) => if id in db.attempts then db.attempts[id].reservation.observation else id;
    forall x | x in s ensures f(x) in db.observations {
      assert AttemptSound(db.observations, db.stopped, x, db.attempts[x]);
    }
    InjectionBound(s, db.observations, f);
  }

  lemma SubsetBound(s: set<Id>, t: set<Id>)
    requires s <= t
    ensures |s| <= |t|
  {
    InjectionBound(s, t, x => x);
  }

  lemma TwoPerObservation(db: Ledger, role: Role)
    requires Inv(db)
    ensures |RoleAttempts(db.attempts, role)| <= 2 * |db.observations|
  {
    var first := RoleRetryAttempts(db.attempts, role, 0);
    var second := RoleRetryAttempts(db.attempts, role, 1);
    RetryLevelBound(db, role, 0);
    RetryLevelBound(db, role, 1);
    forall id | id in RoleAttempts(db.attempts, role) ensures id in first + second {
      assert AttemptSound(db.observations, db.stopped, id, db.attempts[id]);
    }
    assert RoleAttempts(db.attempts, role) == first + second;
  }

  lemma Capacity(db: Ledger, role: Role)
    requires Inv(db)
    ensures |RoleAttempts(db.attempts, role)| <= db.limits.For(role)
    ensures |RoleAttempts(db.attempts, role)| <= 2 * db.limits.observations
    ensures |db.mcp| <= |db.observations| && |db.fences| <= |db.observations| <= db.limits.observations
  {
    TwoPerObservation(db, role);
    SubsetBound(db.mcp.Keys, db.observations);
    SubsetBound(db.fences.Keys, db.observations);
  }

  /** Slots are never given back: counts only grow along a run, and stay bounded. */
  lemma {:induction false} NoRefund(s: System, es: seq<Event>, role: Role)
    requires SysInv(s)
    ensures var a, b := s.db, Run(s, es).db;
      && RoleAttempts(a.attempts, role) <= RoleAttempts(b.attempts, role)
      && |RoleAttempts(a.attempts, role)| <= |RoleAttempts(b.attempts, role)| <= a.limits.For(role)
      && a.mcp.Keys <= b.mcp.Keys && a.fences.Keys <= b.fences.Keys
      && a.observations <= b.observations && |b.observations| <= a.limits.observations
  {
    RunGood(s, es);
    var a, b := s.db, Run(s, es).db;
    forall id | id in RoleAttempts(a.attempts, role) ensures id in RoleAttempts(b.attempts, role) {
      assert AttemptEvolves(a.attempts[id], b.attempts[id]);
    }
    SubsetBound(RoleAttempts(a.attempts, role), RoleAttempts(b.attempts, role));
    Capacity(b, role);
  }
}
