# Evaluation custody, verified

A Dafny 4.11 model of the evaluation custody protocol and of the components that run on it. `dafny verify
dfyconfig.toml` checks the whole project.

## The ledger

`AttemptBudget` is a protocol between processes over one serialised store: attempts (RESERVED, IN_FLIGHT, TERMINAL),
MCP calls, observation fences (OPEN, CLOSED), a sticky stop, and caps. Each process also holds a local capability: the
right to act inside the one observation whose fence it opened or joined.

- `Ledger.dfy` is the durable state and, per operation, the transaction it performs: a commit, a refusal, or a refusal
  that first commits a stop. Every transaction then meets a fate of the store: acknowledged, not committed, or committed
  with the acknowledgement lost.
- `LedgerInvariant.dfy` says what every transaction keeps and how one durable state may follow another.
- `LedgerRuns.dfy` composes calls, crashes, attachments and fates of any number of processes into runs, and holds the
  protocol's theorems: mutual exclusion, fail-closed restart, absorption and draining after a stop, safe close,
  capacity by counting.
- `LedgerExact.dfy` says of every operation, in terms of rows, counts and caps, when exactly it is granted, what exactly
  it then writes, and that no refusal names a false reason.
- `AttemptBudget.dfy` is the controller object, proved method by method to be those transactions.

## The clients of the ledger

- `World.dfy` is what one process does not control: everyone else's activity between two of its store calls, the fates
  of its calls, and a clock that never runs backwards. All three are arbitrary.
- `BoundedProvider.dfy` runs one provider attempt (`BudgetedTransport`) over that ledger against two deadlines.
- `RoleAdmission.dfy` is the transport of the composed evaluation around it: one configured request, and a response
  contract before acceptance.
- `Composition.dfy` runs one observation, its planner over that transport, and decides, after any mix of stage failures,
  whether the observation's fence may close; `HttpPrimary.dfy` is the reconciliation of one HTTP capture with the ledger
  that it relies on.
- `SuccessfulRun.dfy` runs one concrete observation to the acknowledged close of its fence.
- `WireGate.dfy` is the byte gate behind the one-use send lease, and the bounded response read.

## The independent cores

- `CanonicalText.dfy` and `QueryEngines.dfy`: the in-memory search endpoint and the relational reference must agree.
  Complete results agree exactly when equal amounts stand in increasing id order, pages exactly when the rows shown come
  before all later ones; an input that breaks both is given.
- `Benchmark.dfy` and `Experiment.dfy`: the judge benchmark loop, and the armed-dispatch experiment against a judge that
  may call its transport in any way.
- `Observer.dfy`: the governance profiler as a machine over call and return events.
- `CaptureAdmission.dfy`: what an admitted backend capture must look like on every channel.
- `History.dfy`: eligibility of an attempt history.

## Where the code and its documentation differ

The model follows the code.

- A request that is about to be refused as a reissue has already overwritten the attempt deadline
  (`evals/harness/bounded_provider_v3.py`, lines 196-203), so "the attempt deadline continues through the whole bound
  role" fails of a bare `BudgetedTransport` once a later request moves the deadline: `AcceptedAfterItsDeadline` runs the
  case and `FirstDeadlineKept` is the exact condition (no later request, or the role ends first). Acceptance there is
  stated against the deadlines in force when it is published. `AdmittedRoleTransport` lets one request through, and
  `AcceptedOnTime` shows that its acceptances always keep that request's own deadline.
- A refused call may commit a stop (`evals/harness/attempt_budget_v2.py`, lines 338-340, 519-521, 688-690). These three
  are the only writes of refused calls.
- `reserve` refuses to bypass an open fence but does not require one, so a closed observation may get later attempts:
  `ReserveAfterClose` says exactly when, and `ReservedAfterClose` is such a history.
- The benchmark's stop rule speaks of provider, transport and schema failures; the loop counts every row that is not
  valid (`scripts/run_live_judge_benchmark.py`, lines 745 and 752). `UnnamedFailuresStop` is a run on which they differ
  and `DeclaredRuleExactly` says which runs these are.
- The endpoint accepts date spellings and blank names that the reference refuses; `AcceptedByBoth` says exactly which.
- A ledger in which a retry was granted can never pass the HTTP reconciliation, which demands a single attempt per role.

## Model

| member | source | states |
|---|---|---|
| LedgerInvariant.InitialInv | evals/harness/attempt_budget_v2.py:256-265 | a newly created run with legal caps is sound |
| LedgerInvariant.BeginGood | evals/harness/attempt_budget_v2.py:374-414 | opening a fence keeps every ledger invariant and only grows the history, whichever branch is taken |
| LedgerInvariant.CloseGood | evals/harness/attempt_budget_v2.py:432-467 | closing keeps the invariants; nothing pending is orphaned by it |
| LedgerInvariant.ReserveGood | evals/harness/attempt_budget_v2.py:469-548 | a reservation, granted or turned into a stop, keeps slots unique, budgets bounded and retries paired |
| LedgerInvariant.StartGood | evals/harness/attempt_budget_v2.py:559-570 | starting keeps the invariants; a row only moves forward |
| LedgerInvariant.FinishGood | evals/harness/attempt_budget_v2.py:572-597 | an unsafe outcome is never recorded without the stop that goes with it |
| LedgerInvariant.ReserveMcpGood | evals/harness/attempt_budget_v2.py:604-626 | an MCP reservation keeps the invariants and the open fence's custody |
| LedgerInvariant.AdmitMcpGood | evals/harness/attempt_budget_v2.py:628-648 | an MCP admission keeps the invariants |
| LedgerInvariant.FinishMcpGood | evals/harness/attempt_budget_v2.py:650-673 | an unknown MCP receipt is never recorded without a stop |
| LedgerInvariant.EnsureRecoverableGood | evals/harness/attempt_budget_v2.py:675-692 | the restart gate keeps the invariants even when it persists a stop |
| LedgerInvariant.RetryHasSibling | evals/harness/attempt_budget_v2.py:488-521 | a retry that is granted has a safely finished first attempt with the same identity |
| LedgerRuns.ExecGood | evals/harness/attempt_budget_v2.py:309-320 | every committed transaction of every operation leads from a sound ledger to a sound one that evolved from it |
| LedgerRuns.StepGood | evals/harness/attempt_budget_v2.py:309-430 | one step of any controller, crash, attach or lost acknowledgement keeps the whole system sound |
| LedgerRuns.RunGood | evals/harness/attempt_budget_v2.py:309-692 | the same over every finite run: invariant kept, durable history only grows |
| LedgerRuns.ReachableStates | evals/harness/attempt_budget_v2.py:343-430 | in every reachable state: at most one OPEN fence, every capability names a real fence row, everything pending belongs to the open fence |
| LedgerRuns.OpenFenceExcludes | evals/harness/attempt_budget_v2.py:343-352 | an OPEN fence refuses every admission call of a controller without its capability |
| LedgerRuns.StepKeepsOpen | evals/harness/attempt_budget_v2.py:432-467 | a fence leaves OPEN in exactly those steps in which its close commits |
| LedgerRuns.StepAddsFence | evals/harness/attempt_budget_v2.py:374-414 | a fence row appears in exactly those steps in which a begin commits, and it appears OPEN |
| LedgerRuns.FenceHistory | evals/harness/attempt_budget_v2.py:374-467 | a fence found after a run was opened by one committed begin of it and bears that begin's token: absent, OPEN, CLOSED and nothing else |
| LedgerRuns.OpenUntilClosed | evals/harness/attempt_budget_v2.py:432-467 | over any run a fence is still OPEN if and only if no close of it committed |
| LedgerRuns.FailClosedRestart | evals/harness/attempt_budget_v2.py:374-414 | once a begin took effect, acknowledged or not, every admission call without that capability is refused and writes nothing, in every later state until a close commits |
| LedgerRuns.OrphanLocksRun | evals/harness/attempt_budget_v2.py:416-467 | a fence whose capability nobody holds locks admission, close and recovery for the rest of any run without a join |
| LedgerRuns.LostBeginAckOrphans | evals/harness/attempt_budget_v2.py:374-414 | a begin that committed without its acknowledgement leaves such an orphan at once |
| LedgerRuns.StopRefuses | evals/harness/attempt_budget_v2.py:389-390 | after a stop no begin, join, close, reservation, start, MCP reservation, admission or recovery succeeds or writes |
| LedgerRuns.StoppedStep | evals/harness/attempt_budget_v2.py:322-326 | after a stop the only steps that still write are completions of pending rows |
| LedgerRuns.StoppedRunDrains | evals/harness/attempt_budget_v2.py:322-326 | stop is absorbing and its first reason final; writes made plus rows still pending always equal the rows pending at the stop |
| LedgerRuns.UncertaintyImpliesStop | evals/harness/attempt_budget_v2.py:24-34 | an unstopped sound ledger holds only safe outcomes, so the close's outcome tests mean exactly that nothing is pending |
| LedgerRuns.ReserveAfterClose | evals/harness/attempt_budget_v2.py:343-352 | an attempt of a closed observation is granted if and only if its arguments are legal, the run is unstopped, no fence is open, its slot and tokens are free, a retry has its known completion, and the role has budget |
| LedgerRuns.ReservedAfterClose | evals/harness/attempt_budget_v2.py:469-548 | such a history: an observation opened, closed, and then reserved for without a capability |
| LedgerRuns.CloseExactly | evals/harness/attempt_budget_v2.py:432-467 | a close is granted if and only if the run is unstopped, the fence open and held, and nothing is pending |
| LedgerRuns.RefusalWrites | evals/harness/attempt_budget_v2.py:328-341 | a refusal that commits writes only a stop, and only for one of three exhaustion or recovery causes that really hold |
| LedgerRuns.RefusalFrame | evals/harness/attempt_budget_v2.py:309-341 | every refused call leaves the ledger as it was, except for those three stops, under every fate of the commit |
| LedgerRuns.RetryHasUniqueSibling | evals/harness/attempt_budget_v2.py:488-521 | each retry row has exactly one first attempt with the same model, request, prompt and schema, ended safely |
| LedgerRuns.Capacity | evals/harness/attempt_budget_v2.py:239-250 | attempts per role are at most the role cap and twice the observation cap; MCP calls and fences at most the counted observations |
| LedgerRuns.NoRefund | evals/harness/attempt_budget_v2.py:495-548 | along every run the used slots only grow and stay within the caps |
| LedgerExact.AccessExactly | evals/harness/attempt_budget_v2.py:343-352 | access is granted exactly when every open fence is the one asked for and the caller's own; each refusal names the fence that is in the way |
| LedgerExact.BeginExactly | evals/harness/attempt_budget_v2.py:374-414 | a begin is granted exactly on an unstopped run with nothing pending, every fence closed, a new fence row and token, and room for the observation; it writes that row and nothing else |
| LedgerExact.BeginAgain | evals/harness/attempt_budget_v2.py:374-388 | a controller with a capability is granted a begin exactly when it asks for its own observation and its fence is still good, and writes nothing |
| LedgerExact.ActiveExactly | evals/harness/attempt_budget_v2.py:354-372 | the active check passes exactly on an unstopped run whose open fence of the observation is the caller's own |
| LedgerExact.JoinExactly | evals/harness/attempt_budget_v2.py:416-430 | a join is granted exactly without a capability, on an unstopped run, for an open fence with that token; it writes nothing durable |
| LedgerExact.CloseWrites | evals/harness/attempt_budget_v2.py:432-467 | a granted close writes the closed fence with its summary and nothing else |
| LedgerExact.RecoverableExactly | evals/harness/attempt_budget_v2.py:675-692 | the restart gate opens exactly for an unstopped run with nothing pending and no open fence but the caller's own |
| LedgerExact.RetryExactly | evals/harness/attempt_budget_v2.py:497-518 | a retry finds no obstacle among earlier rows exactly when its slot is free and the first attempt ended safely with the same model, request, prompt and schema |
| LedgerExact.ReserveExactly | evals/harness/attempt_budget_v2.py:480-548 | a reservation is granted exactly with legal retry arguments, on an unstopped run with fence access, a free slot, the retried attempt if it is a retry, room in the role and observation budgets, and free tokens |
| LedgerExact.ReserveWrites | evals/harness/attempt_budget_v2.py:519-548 | a granted reservation writes its RESERVED row and counts its observation, and nothing else |
| LedgerExact.StartExactly | evals/harness/attempt_budget_v2.py:559-570 | a start is granted exactly for the caller's own RESERVED row, unstopped and with fence access; it moves that row to IN_FLIGHT and nothing else |
| LedgerExact.FinishExactly | evals/harness/attempt_budget_v2.py:572-597 | a finish is granted exactly for a pending row of that reservation in the state its claim needs; the row is terminal with the claimed outcome, and an unsafe outcome stops the run with its own reason |
| LedgerExact.ReserveMcpExactly | evals/harness/attempt_budget_v2.py:604-626 | an MCP reservation is granted exactly on an unstopped run with fence access, no earlier call, room and a fresh token; it writes the RESERVED row and nothing else |
| LedgerExact.AdmitMcpExactly | evals/harness/attempt_budget_v2.py:628-648 | an MCP admission is granted exactly for the reserved call of that proposal, unstopped and with fence access |
| LedgerExact.FinishMcpExactly | evals/harness/attempt_budget_v2.py:650-673 | a finished MCP call is terminal with the claimed outcome; an unknown receipt stops the run, an observed response leaves the stop fields alone |
| LedgerExact.UnknownReceiptNeverCloses | evals/harness/attempt_budget_v2.py:650-673 | after an MCP call ended with an unknown receipt no controller's close commits in any later ledger of any run |
| LedgerExact.FateExactly | evals/harness/attempt_budget_v2.py:309-320 | success is reported exactly for an acknowledged commit; an uncommitted operation leaves no trace and a lost acknowledgement leaves all of it |
| LedgerExact.CapabilityExactly | evals/harness/attempt_budget_v2.py:374-467 | after an acknowledged call: a close leaves no capability, a begin or join the one of the open fence, every other call the old one |
| LedgerExact.RefusalIsTrue | evals/harness/attempt_budget_v2.py:343-692 | every reason given for a refused call is true of the call and the ledger |
| LedgerExact.FenceComesFirst | evals/harness/attempt_budget_v2.py:343-692 | a stopped run answers every access with the stop, an unstopped one with the fence in the way, before anything else is looked at |
| AttemptBudgetController.AttemptBudget.AssertFenceAccess | evals/harness/attempt_budget_v2.py:343-352 | the loop over the rows reports exactly the first fence error of the ledger, in any row order |
| AttemptBudgetController.AttemptBudget.CheckPrior | evals/harness/attempt_budget_v2.py:495-521 | finds the duplicate or unknown-completion error exactly when there is one |
| AttemptBudgetController.AttemptBudget.AssertActiveObservation | evals/harness/attempt_budget_v2.py:354-372 | acts as the ledger transaction under every store fate, about the observation asked for or else the one held; success means a held open fence and no stop |
| AttemptBudgetController.AttemptBudget.BeginObservation | evals/harness/attempt_budget_v2.py:374-414 | same, and the capability is taken only on an acknowledged commit |
| AttemptBudgetController.AttemptBudget.JoinObservation | evals/harness/attempt_budget_v2.py:416-430 | same; a join writes nothing |
| AttemptBudgetController.AttemptBudget.CloseSafeObservation | evals/harness/attempt_budget_v2.py:432-467 | same, and the capability is dropped only on an acknowledged commit |
| AttemptBudgetController.AttemptBudget.Reserve | evals/harness/attempt_budget_v2.py:469-548 | same, including the two refusals that persist a stop |
| AttemptBudgetController.AttemptBudget.Start | evals/harness/attempt_budget_v2.py:559-570 | same |
| AttemptBudgetController.AttemptBudget.Finish | evals/harness/attempt_budget_v2.py:572-597 | same, including the stop an unsafe outcome brings |
| AttemptBudgetController.AttemptBudget.Stop | evals/harness/attempt_budget_v2.py:599-602 | same; the first reason is kept |
| AttemptBudgetController.AttemptBudget.ReserveMcp | evals/harness/attempt_budget_v2.py:604-626 | same |
| AttemptBudgetController.AttemptBudget.AdmitMcp | evals/harness/attempt_budget_v2.py:628-648 | same |
| AttemptBudgetController.AttemptBudget.FinishMcp | evals/harness/attempt_budget_v2.py:650-673 | same |
| AttemptBudgetController.AttemptBudget.EnsureRecoverable | evals/harness/attempt_budget_v2.py:675-692 | same, including the stop for unresolved custody |
| LedgerRuns.SnapshotOutlasts | evals/harness/attempt_budget_v2.py:694-737 | what a snapshot tells of stops, terminal rows, closed fences and used slots stays true in every later ledger |
| EvaluationWorld.World.Snapshot | evals/harness/attempt_budget_v2.py:694-737 | a reader gets a sound ledger that grew from every ledger marked earlier, exactly when its read was acknowledged |
| AttemptBudgetController.TookIsNext | evals/harness/attempt_budget_v2.py:309-320 | a method call of a controller is one step of the run semantics the theorems are about |
| AttemptBudgetController.OthersStayValid | evals/harness/attempt_budget_v2.py:343-352 | whatever other controllers commit, a controller's capability still names a fence row with its id |
| EvaluationWorld.RunKeepsRow | evals/harness/attempt_budget_v2.py:550-557 | a foreign run that never presents an attempt's record leaves its row untouched |
| EvaluationWorld.RunKeepsOpen | evals/harness/attempt_budget_v2.py:432-467 | a foreign run without a close of a fence leaves it open |
| EvaluationWorld.World.Turn | evals/harness/attempt_budget_v2.py:309-320 | arbitrary activity of all other controllers between two calls keeps the system sound and leaves exclusively held rows alone |
| EvaluationWorld.World.Finish | evals/harness/attempt_budget_v2.py:572-597 | an acknowledged finish left the row terminal with the written outcome, whoever else acted; a record nobody else presents is otherwise as it was |
| EvaluationWorld.World.Close | evals/harness/attempt_budget_v2.py:432-467 | if the fence is closed afterwards the ledger was unstopped with nothing pending at that moment |
| BoundedProvider.BudgetedTransport.StopRun | evals/harness/bounded_provider_v3.py:150-158 | the local stop and the revocation of the acceptance hold even when the durable stop fails; exactly one stop event tells which |
| BoundedProvider.BudgetedTransport.Guard | evals/harness/bounded_provider_v3.py:172-189 | one clock sample; it fails exactly when a deadline in force is reached, and then records it |
| BoundedProvider.BudgetedTransport.ExpiredExactly | evals/harness/bounded_provider_v3.py:165-170 | a deadline is over from its very instant on; which scopes a sample exceeds |
| BoundedProvider.BudgetedTransport.BeginRole | evals/harness/bounded_provider_v3.py:135-139 | a second logical call stops the run |
| BoundedProvider.BudgetedTransport.Arm | evals/harness/bounded_provider_v3.py:141-148 | arming twice or after entry stops the run |
| BoundedProvider.BudgetedTransport.Integrity | evals/harness/bounded_provider_v3.py:160-163 | a swapped or shut-down delegate stops the run |
| BoundedProvider.FirstDeadlineKept | evals/harness/bounded_provider_v3.py:195-203 | every sample the transport accepts lies before the sent attempt's own deadline if and only if no later request moved it or the role ends first |
| BoundedProvider.AcceptedInOwnTime | evals/harness/bounded_provider_v3.py:195-203 | a published acceptance keeps the accepted attempt's own deadline under that condition |
| BoundedProvider.AcceptedAfterItsDeadline | evals/harness/bounded_provider_v3.py:195-203 | a transport run to the end: sent at 0.0, refused reissue at 0.9, accepted at 1.5, half a second after the attempt's own deadline |
| BoundedProvider.BudgetedTransport.SetDeadlines | evals/harness/bounded_provider_v3.py:195-199 | every request overwrites the attempt deadline while the role deadline is set once; a published acceptance stays before both |
| BoundedProvider.BudgetedTransport.CheckRequest | evals/harness/bounded_provider_v3.py:204-215 | only the armed payload to the armed endpoint for the pinned model passes; anything else stops |
| BoundedProvider.BudgetedTransport.Admit | evals/harness/bounded_provider_v3.py:244-283 | reaching the delegate means acknowledged reserve and start with the attempt in flight, the run unstopped and the fence open at the check |
| BoundedProvider.BudgetedTransport.Receive | evals/harness/bounded_provider_v3.py:284-326 | a response is taken exactly when it has a 2xx status, the allowed size and the pinned model and the last sample is before every deadline in force |
| BoundedProvider.BudgetedTransport.Conclude | evals/harness/bounded_provider_v3.py:331-334 | success means the response observation is durably acknowledged |
| BoundedProvider.BudgetedTransport.SettleCustody | evals/harness/bounded_provider_v3.py:362-390 | the attempt ends terminal or its custody is recorded as unacknowledged, with the outcome left to claim for it; no-send is claimed only before any start |
| BoundedProvider.BudgetedTransport.Recover | evals/harness/bounded_provider_v3.py:335-394 | every exception path stops, revokes acceptance and settles custody |
| BoundedProvider.BudgetedTransport.HandleAsyncRequest | evals/harness/bounded_provider_v3.py:195-394 | the delegate is entered at most once, only with this call's own attempt in flight; a return means acknowledged custody; every exit after a reservation settles it; every failing exit stops, except the refusal to reissue, which only moves the deadlines; a return needs a ready transport, the armed request, a good response, acknowledged commits and samples in time, and where nobody else acts nothing more; where the attempt ended, its outcome is exactly the one due to its exchange and samples: no send if the reservation was late, unknown without a response, observed only for a good response in time, otherwise rejected for its model or for anything else |
| BoundedProvider.BudgetedTransport.Publish | evals/harness/bounded_provider_v3.py:409-421 | acceptance is published only with a final sample before both deadlines |
| BoundedProvider.BudgetedTransport.AcceptRole | evals/harness/bounded_provider_v3.py:396-421 | a published acceptance means: not stopped, the attempt terminal with RESPONSE_OBSERVED, the run unstopped at the snapshot, the final sample strictly before both current deadlines; it is published exactly when response, snapshot and samples allow it |
| BoundedProvider.AcceptanceMeansOneExchange | evals/harness/bounded_provider_v3.py:396-421 | a published acceptance stands for exactly one delegation: a first attempt of this observation and role, admitted in an unstopped run under the open fence, in flight when sent and terminal with RESPONSE_OBSERVED now |
| BoundedProvider.BudgetedTransport.PerformRole | evals/harness/bounded_provider_v3.py:460-532 | for a provider that calls the transport any number of times: success only with an acceptance, every failure stops |
| BoundedProvider.BudgetedTransport.FailRole | evals/harness/bounded_provider_v3.py:474-491 | a failed role stops the run with the reason its failure calls for; a cancellation stays one |
| BoundedProvider.AcceptanceOutlastsOthers | evals/harness/bounded_provider_v3.py:396-421 | whatever any other controller then does, a published acceptance keeps its meaning |
| BoundedProvider.OpenTransport | evals/harness/bounded_provider_v3.py:95-133 | a transport exists only after its observation's fence was acknowledged |
| RoleAdmission.AdmittedRoleTransport.HandleAsyncRequest | evals/harness/live_provider_candidate_v2.py:116-142 | the bounded transport below is reached by one request ever; every failure of an armed request stops the run, a refused reissue too; a return needs the bound context, a ready transport, the armed request and a good response, and with an admitting ledger left alone and samples in time nothing more |
| RoleAdmission.AdmittedRoleTransport.AcceptRole | evals/harness/live_provider_candidate_v2.py:144-153 | accepted exactly when the response facts were acknowledged and passed and the bounded transport accepts: response observed, an acknowledged unstopped snapshot, samples in time |
| RoleAdmission.AdmittedRoleTransport.PerformRole | evals/harness/live_provider_candidate_v2.py:116-160 | success needs a well-ended provider and a passed contract; undisturbed, a provider that asks once for what was armed and gets a good answer in time is always accepted, and the ledger is then that of one answered attempt |
| RoleAdmission.AcceptedOnTime | evals/harness/live_provider_candidate_v2.py:116-153 | what this transport accepts was accepted before the attempt deadline of the one request ever made and before the role deadline, without a condition |
| Composition.Supervisor.Fail | evals/harness/eval_002b_composition_v4.py:356-364 | error and root stop are set together and the first error is kept |
| Composition.Supervisor.UsePlanner | evals/harness/eval_002b_composition_v4.py:366-398 | however the session uses the planner, its fence stays open and its own, and a published acceptance stands for one planner attempt of the observation, terminal with RESPONSE_OBSERVED and accepted before its own deadline |
| Composition.Supervisor.RunSession | evals/harness/eval_002b_composition_v4.py:366-415 | a stop is attempted exactly when the session broke or its capture failed, and a cancellation escapes |
| Composition.Supervisor.ReadCaptures | evals/harness/eval_002b_composition_v4.py:416-440 | a stop is attempted exactly when a stream is missing or one already was |
| Composition.Supervisor.AdmitCaptures | evals/harness/eval_002b_composition_v4.py:441-500 | no capture error is left exactly when every capture was read, correlated and admitted |
| Composition.Supervisor.Finalise | evals/harness/eval_002b_composition_v4.py:501-627 | the close is attempted exactly on persisted, error-free, fully admitted and clean sessions of an unstopped run, with a planner response behind it, and is acknowledged exactly when its commit is and the ledger it meets is unstopped with nothing pending |
| Composition.Supervisor.RunObservation | evals/harness/eval_002b_composition_v4.py:315-627 | over every mix of stage failures and escaping exceptions: the summary has an error exactly when a root stop was attempted; a close is attempted exactly when the summary persisted without a root stop on an unstopped snapshot, the session completed with a verified envelope and clean MCP custody, the planner and every judge were accepted, and neither recorded a stop; then the planner used exactly one attempt, terminal with RESPONSE_OBSERVED at the close, and nothing was retried; the close is acknowledged if and only if its commit is and the ledger it meets is unstopped with nothing pending; every other ending leaves the fence OPEN; undisturbed, an openable ledger, a well-behaved planner and smooth stages always end with the close acknowledged |
| Composition.Supervisor.CleanMeans | evals/harness/eval_002b_composition_v4.py:570-605 | the clean sessions spelled out over the ledger and the events |
| SuccessfulRun.HeldObservationCloses | evals/harness/eval_002b_composition_v4.py:315-627 | a whole observation run to its end: one planner answer, a request held for review, and the close acknowledged |
| Composition.OpenedServes | evals/harness/eval_002b_composition_v4.py:315-398 | an openable ledger with a free planner budget opens, admits the planner attempt, and holds that one answered attempt afterwards |
| Composition.AdmittedOnce | evals/harness/eval_002b_composition_v4.py:448-500 | an observation whose captures are admitted used each role once at most and retried nothing |
| Composition.RunKeepsReservations | evals/harness/eval_002b_composition_v4.py:448-627 | foreign activity that reserves nothing for the observation between snapshot and close leaves its reservations alone |
| Composition.AdmittedStands | evals/harness/eval_002b_composition_v4.py:448-627 | so what the snapshot admitted the close still meets |
| Composition.DeliveredAlone | evals/harness/eval_002b_composition_v4.py:166-215 | where each role was used once a delivered planner attempt is the only planner attempt of the observation |
| HttpPrimary.SilentIffUnreserved | evals/harness/eval_002b_composition_v4.py:184-213 | a validated capture shows no activity exactly when the ledger holds no attempt for the role |
| HttpPrimary.ValidatesExactly | evals/harness/eval_002b_composition_v4.py:184-253 | a capture is validated exactly when the server is consistent and either nothing was reserved and nothing happened, or one attempt, one consumed lease, one row of facts, client and server agree field by field |
| HttpPrimary.ValidatedIsOneFirstAttempt | evals/harness/eval_002b_composition_v4.py:214-253 | otherwise it stands for a single first attempt whose lease, request, bytes and response facts agree on client, server and ledger |
| HttpPrimary.ValidatedOnce | evals/harness/eval_002b_composition_v4.py:214-253 | in a sound ledger a validated role was used once at most, never for a retry |
| HttpPrimary.RetryIsNeverValidated | evals/harness/eval_002b_composition_v4.py:214-215 | a ledger with a retry admits no capture of that role at all |
| WireGate.SendLease.Consume | evals/harness/live_http_transport_v1.py:119-126 | a lease is consumed at most once, even when its acknowledgement is lost |
| WireGate.LiveHTTPTransport.ArmSendDeadline | evals/harness/live_http_transport_v1.py:274-288 | the send deadline is armed once and only before entry |
| WireGate.LiveHTTPTransport.GuardSendDeadline | evals/harness/live_http_transport_v1.py:290-296 | passes exactly when a deadline is armed and the sample lies before it |
| WireGate.OneRequestStream.Write | evals/harness/live_http_transport_v1.py:110-148 | a buffer reaches the socket exactly when it is the header block under an acknowledged lease in time, or the next bytes of the body |
| WireGate.OneRequestStream.Drive | evals/harness/live_http_transport_v1.py:110-148 | for every sequence of writes the bytes offered are a prefix of header block and body, headers whole and once, nothing before an acknowledged lease sampled in time, nothing after the transport was swapped or the stream closed; header block and body in well-cut writes under an acknowledged lease in time all go out |
| WireGate.LiveHTTPTransport.ReadBody | evals/harness/live_http_transport_v1.py:392-398 | exactly the bodies within the bound are accepted; what is retained is the concatenation of the accepted parts and never exceeds it |
| CanonicalText.TextOrderIsCalendarOrder | evals/data01/generator.py:81-85 | on canonical dates text order, date order and day-number order are one order |
| CanonicalText.IsoRoundTrip | evals/data01/generator.py:81-85 | printing a date and reading it back gives the date |
| CanonicalText.CanonicalTextIsIso | evals/data01/generator.py:81-85 | a canonical text is exactly what its date prints as |
| CanonicalText.FiscalYearIsTextRange | evals/data01/generator.py:81-85 | every fiscal year is exactly the text range from 1 October to 30 September, cut off at the ends of the calendar |
| CanonicalText.FiscalYearSpan | evals/data01/generator.py:81-85 | a fiscal year spans 364 days from its first to its last, 365 with a 29 February |
| CanonicalText.KnownDates | evals/data01/generator.py:81-85 | the calendar is the Gregorian one, by its leap days |
| CanonicalText.KnownDays | evals/data01/generator.py:81-85 | day numbers count from 1 January of year 1 |
| CanonicalText.CentsAreExact | evals/data01/generator.py:181-184 | a valid amount is exactly a whole number of cents |
| CanonicalText.AmountOrderIsCentOrder | evals/data01/generator.py:181-184 | amounts compare as decimals exactly as they compare in cents |
| CanonicalText.KnownAmounts | evals/data01/generator.py:181-184 | concrete amounts in cents, and texts that are none |
| CanonicalText.LongestAmount | evals/data01/generator.py:181-184 | twelve digits are the most |
| QueryEngines.SelectSearch | evals/data01/backend_v1.py:67-141 | the endpoint answers exactly the payloads no check refuses, with the stable descending sort of exactly the records that pass every filter |
| QueryEngines.PayloadExactly | evals/data01/backend_v1.py:67-129 | the accepted payloads, check by check |
| QueryEngines.StableRowsIsStable | evals/data01/backend_v1.py:139-141 | the result is descending, and rows of equal cents stand in source order |
| QueryEngines.OneStableSort | evals/data01/backend_v1.py:139-141 | there is only one such arrangement |
| QueryEngines.SortsAlike | evals/data01/backend_v1.py:139-141 | sorting by decimal amounts is sorting by cents, tie for tie |
| QueryEngines.StableIsStrictIffTies | evals/data01/backend_v1.py:139-141 | the stable descending sort yields the strict (cents, id) order if and only if its input has equal amounts in increasing id order |
| QueryEngines.TiedDatasetDisagrees | evals/data01/backend_v1.py:139-141 | a concrete input of both engines, two tied awards, on which they give different lists |
| QueryEngines.OrderBy | evals/data01/reference_v1.py:128-134 | the result is an ordered arrangement of exactly the selected rows |
| QueryEngines.OneStrictOrder | evals/data01/reference_v1.py:128-134 | rows in strict order are their only ordered arrangement |
| QueryEngines.Answer | evals/data01/reference_v1.py:118-143 | building clauses key by key selects exactly what the scope means, then orders, pages, counts and sums it; errors come in the order of the checks |
| QueryEngines.FoundExactly | evals/data01/reference_v1.py:82-143 | the complete result has exactly the ids of the awards that meet the scope in every field, subagency included, each once and with its cents |
| QueryEngines.AcceptedByBoth | evals/data01/reference_v1.py:31-80 | what the reference accepts the endpoint accepts; the reference refuses in addition exactly non-canonical dates and blank texts |
| QueryEngines.FiltersAgree | evals/data01/reference_v1.py:118-128 | an award of the subagency asked for passes the endpoint's filter exactly when its row satisfies the clauses |
| QueryEngines.FiscalYearsAreAccepted | evals/data01/reference_v1.py:55-80 | every fiscal-year scope that is otherwise legal is accepted by both engines |
| QueryEngines.LongestRange | evals/data01/reference_v1.py:55-66 | a range may have 366 days between its ends and no more |
| QueryEngines.ResultsAgreeIffTiesById | evals/data01/reference_v1.py:82-143 | for every accepted scope, with or without a subagency, the complete results over the records of that subagency are equal if and only if the selected awards with equal amounts stand in increasing id order |
| QueryEngines.PagesAgree | evals/data01/reference_v1.py:129-143 | under that condition ids, cents and has-next of the page agree |
| QueryEngines.LeadsAgree | evals/data01/reference_v1.py:128-134 | an arrangement of rows with distinct ids shares its first n rows with the ordered one if and only if each of those comes before everything after it |
| QueryEngines.PagesAgreeIff | evals/data01/reference_v1.py:129-143 | the pages cut at the limit agree if and only if each row the endpoint shows comes before every later row in (cents, id) order; ties behind the page do not matter |
| QueryEngines.OrderedDatasetAgrees | evals/data01/reference_v1.py:129-143 | a dataset whose ties stand by id agrees on every scope |
| QueryEngines.TotalIsExact | evals/data01/reference_v1.py:135-142 | summing the page in cents loses nothing against the decimal amounts |
| QueryEngines.TotalsAgree | evals/data01/reference_v1.py:135-142 | where the pages agree the reference's page total is the sum of the decimal amounts the endpoint shows |
| QueryEngines.NamesAgree | evals/data01/reference_v1.py:107-117 | on recipient names the engines agree on every dataset and differ only in refusing a blank keyword |
| QueryEngines.SpacesExactly | evals/data01/reference_v1.py:45-50 | the characters that make a text blank |
| Experiment.ExperimentTransport.Arm | scripts/run_j3_experiment.py:131-134 | arms exactly the next unarmed sequence number, and for the journalling transport only one that was journaled |
| Experiment.ExperimentTransport.HandleAsyncRequest | scripts/run_j3_experiment.py:136-209 | a request goes out exactly when it is the armed next frozen payload with everything verified; it then disarms and is logged |
| Experiment.NotFatalMeans | scripts/run_j3_experiment.py:236-266 | an observation does not stop the experiment exactly when one clean, identified and consistent exchange stands behind it |
| Experiment.FatalIsTrue | scripts/run_j3_experiment.py:236-266 | every fatal reason given is true of the row, the counter or the evidence |
| Experiment.FatalPrecedence | scripts/run_j3_experiment.py:236-266 | named guards win over the accounting, the accounting over other guards, and all of them over the evidence, which is read in one order |
| Experiment.AssessCase | scripts/run_j3_experiment.py:290-292 | whatever the judge does, at most one request gets through, and only if armed |
| Experiment.Observe | scripts/run_j3_experiment.py:289-320 | arming never fails here, and a case goes on exactly when its row is clean and its result persisted |
| Experiment.RunExperiment | scripts/run_j3_experiment.py:269-335 | in every prefix sent requests are at most persisted starts and a prefix of the frozen payloads; arm never raises; no abort means 44 clean rows, 44 requests and 44 persisted results; the status is not incomplete exactly when nothing aborted the run, and then each of the 44 slots has one request, one persisted result and its frozen payload sent in order; all-valid is exactly that with 44 valid rows |
| Experiment.PersistStart | scripts/prepare_j4_gpt6_luna.py:397-409 | a sequence number counts as journaled only after its start record persisted |
| Observer.ReadOnlyGovernanceObserver.Enter | evals/harness/governance_observer_v3.py:73-86 | an observer never replaces a profiler and is never reused; a failed installation is sealed as a failure |
| Observer.ReadOnlyGovernanceObserver.Profile | evals/harness/governance_observer_v3.py:160-225 | each callback is one step of the trace machine |
| Observer.ReadOnlyGovernanceObserver.Close | evals/harness/governance_observer_v3.py:240-289 | sealing happens once and writes the whole log with its seal |
| Observer.OpenBound | evals/harness/governance_observer_v3.py:160-190 | matched returns plus open frames never exceed matched calls, and the log never exceeds its bound |
| Observer.CallsAreCounted | evals/harness/governance_observer_v3.py:160-190 | every call is counted, whatever was lost |
| Observer.IntactIffSound | evals/harness/governance_observer_v3.py:160-225 | nothing was lost exactly when the trace is sound, and then the open frames are the keys whose last event is a call |
| Observer.PassIffBalanced | evals/harness/governance_observer_v3.py:240-289 | a PASS seal means exactly: on every key calls and returns alternate and end matched, no faults, no overflow, profiler left in place |
| Observer.CoverageIsLog | evals/harness/governance_observer_v3.py:160-225 | without failures the phase counters equal the logged events phase by phase |
| Observer.LogIsFaithful | evals/harness/governance_observer_v3.py:160-225 | while nothing is lost the i-th logged event is the i-th return together with its own call: the phase and number of that call, the recognition of that return |
| Observer.PassIsAdmitted | evals/harness/live_composition_v3.py:349-374 | every PASS seal satisfies the capture reader, call numbers exactly 1..n, and the admission's coverage check unless an evaluation fell outside the known phases |
| CaptureAdmission.BoundOutcomes | evals/harness/backend_capture_admission_v3.py:643-717 | an admitted bound capture is a full success or an error without result; a result is released only by full success on every channel |
| CaptureAdmission.OutcomeTable | evals/harness/backend_capture_admission_v3.py:108-220 | the outcome checks, scattered over four places, admit five ways for a bound attempt to end and no others |
| CaptureAdmission.ReleasedIsAdmitted | evals/harness/backend_capture_admission_v3.py:275-733 | a concrete capture is admitted with its result, so none of this is empty |
| CaptureAdmission.BoundNeverRetries | evals/harness/backend_capture_admission_v3.py:643-680 | nothing admitted was to be retried, and reception is confirmed exactly when it happened |
| CaptureAdmission.BoundCallOrder | evals/harness/backend_capture_admission_v3.py:421-731 | call numbers run preflight, issue, issuance, consumption, post-result, and the post-result decision is the released one |
| CaptureAdmission.BoundRows | evals/harness/backend_capture_admission_v3.py:394-424 | an admitted bound capture has exactly four rows, or five with a post-result row, numbered in that order without a gap |
| CaptureAdmission.BoundAuthority | evals/harness/backend_capture_admission_v3.py:476-560 | one permitting binding runs from the issuance to the wire request |
| CaptureAdmission.HeldMeansUntouched | evals/harness/backend_capture_admission_v3.py:446-474 | a capture held before dispatch shows execution on no channel |
| CaptureAdmission.HeldExactly | evals/harness/backend_capture_admission_v3.py:421-474 | a capture is held exactly when a complete log, one invocation told alike on every channel and one recorded policy stand behind it and nothing was bound or executed |
| CaptureAdmission.BoundExactly | evals/harness/backend_capture_admission_v3.py:421-731 | a capture is bound exactly when in addition one permission runs from issue to wire, the backend was entered once and in order, and its attempt ended in a known way |
| CaptureAdmission.SilentExactly | evals/harness/backend_capture_admission_v3.py:394-424 | silence is admitted exactly when nothing was recorded on any channel and the caller saw nothing |
| CaptureAdmission.HeldIsAdmitted | evals/harness/backend_capture_admission_v3.py:421-474 | a concrete held capture is admitted |
| History.HistoryError | experiments/b2b_p01_admission_v1.py:141-170 | the loop reports the first failing check of the first failing attempt |
| History.ErrorFreeMeans | experiments/b2b_p01_admission_v1.py:141-170 | no error means exactly: trusted distinct ids, one operation, times that never go back nor past the observation, plausible attempts |
| History.EligibleMeans | experiments/b2b_p01_admission_v1.py:173-267 | eligible means exactly: trusted, error-free, every attempt permitted, terminal and never delegated, no hold, and B permits if asked |
| History.StopMeans | experiments/b2b_p01_admission_v1.py:239-328 | a stop is exactly a denial in a verified history or B's denial of an eligible one |
| History.RejectedMeans | experiments/b2b_p01_admission_v1.py:220-233 | exactly the callers that fail a check on fresh facts are rejected |
| History.VerifiedMeans | experiments/b2b_p01_admission_v1.py:173-236 | verified means exactly: readable, with facts, fresh and about this evidence, a trusted caller, an error-free history that agrees on recovery |
| History.VerdictReason | experiments/b2b_p01_admission_v1.py:237-267 | denial comes before review, review before recovery, recovery before uncertainty, uncertainty before missing proof |
| History.IdentityReasonHolds | experiments/b2b_p01_admission_v1.py:218-233 | a caller is refused for a reason that is true of it |
| History.PrefixClosed | experiments/b2b_p01_admission_v1.py:173-267 | every non-empty prefix of an eligible history is eligible |
| History.AppendNeverEnables | experiments/b2b_p01_admission_v1.py:173-267 | one more attempt never makes an ineligible history eligible |
| History.AppendOnlyHoldsOrStops | experiments/b2b_p01_admission_v1.py:239-267 | one more attempt never rejects a trusted caller, and a denial old or new stops whatever stays verified |
| Benchmark.Run | scripts/run_live_judge_benchmark.py:726-762 | one row per entry in order; the attempted rows are the prefix up to the first reason to stop, stated without the loop's counter |
| Benchmark.ThreeInvalidOnlyAtEnd | scripts/run_live_judge_benchmark.py:742-758 | three rows in a row that are not valid can only be the last attempted ones |
| Benchmark.DeclaredRuleExactly | scripts/run_live_judge_benchmark.py:98-99 | the loop stops apart from the declared rule exactly at three invalid rows with an unnamed failure among them, where nothing else had ended the run; the declared rule never stops a run the loop lets go on |
| Benchmark.UnnamedFailuresStop | scripts/run_live_judge_benchmark.py:742-754 | a run on which they differ: three OTHER_FAILURE rows stop the loop |
| Benchmark.CountsPartition | scripts/run_live_judge_benchmark.py:635-638 | the six terminal counts add up to the rows |
| Benchmark.StatusMeaning | scripts/run_live_judge_benchmark.py:639-646 | each status in terms of the rows: all-valid exactly when unaborted, non-empty and every row valid |
| Benchmark.AllValidRuns | scripts/run_live_judge_benchmark.py:726-762 | a report says all-valid exactly when the run reached its end unaborted with every assessment valid |
| Benchmark.StableMeaning | scripts/run_live_judge_benchmark.py:623-632 | stability is claimed exactly of three valid observations that say the same |
| Benchmark.RepeatStatusMeaning | scripts/run_live_judge_benchmark.py:623-632 | the other statuses in terms of the outcomes, in their order of precedence |
| Experiment.AssessMeans | scripts/run_live_judge_benchmark.py:535-577 | what each outcome of a case says of how the judge ended and of the exchange it saw |

## Left out

- SQLite, files and fsync: each transaction is one atomic step with one of three fates; a journal that fails half way is
  not modelled.
- Timestamps, metadata, MCP metadata and token texts of the rows: they do not steer any branch.
- `LiveAttemptBudget` and its context and liability rows: reduced to a one-use send lease and to lease and response-fact
  rows; the subclass itself is not part of this model.
- `snapshot`'s row lists are the ledger itself, not their JSON rendering.
- Hashing, JSON parsing, regular expressions and field-set checks: digests are the values they digest and inputs are
  typed, so errors about missing or extra keys and wrong types do not occur. The digits Python's `\d` and the
  `fromisoformat` reader accept beyond ASCII are not amounts or canonical dates here.
- asyncio: timeouts and cancellations are failures at the points where the code awaits; partial socket sends are offered
  bytes, delivered or not.
- EvaluationWorld.World.Finish: what it says of a failed finish needs the reservation record in this process's hands alone
  (`Excludes`), which the code keeps by never handing it out. `NoForeignClose` likewise: only the supervisor closes its fence.
- BoundedProvider.BudgetedTransport.HandleAsyncRequest: the delegate may be entered in a ledger that another process has
  stopped after the last check; the proof says that the check itself saw an unstopped run with the fence open.
- BoundedProvider.BudgetedTransport.AcceptRole: another process may stop the run after the snapshot; acceptance claims
  the run unstopped at the snapshot only.
- BoundedProvider.BudgetedTransport.PerformRole: the two roles share one body; parsing a typed proposal or signal is an
  arbitrary failure of the provider, and `_judge_contract`, `_planner_contract` and `_settings` are not modelled.
- Composition.Supervisor.RunObservation: setup failures and uncaught exceptions escape without a stop, as in the code;
  whether a capture file can be read is an arbitrary input. The planner's transport is run; the worker's judge and the
  session's MCP calls act on the ledger as other processes do, and their captures are inputs.
- RoleAdmission.AdmittedRoleTransport.HandleAsyncRequest: binding the request context is one flag, the type checks of
  delegate and budget always hold, and the wire's send deadline is armed in `WireGate.dfy`, not here.
- HttpPrimary.ValidatedIsOneFirstAttempt: `validate_provider_capture` is not part of this model, and the captures of the other
  role are not looked at.
- QueryEngines.TiedDatasetDisagrees: an input of the two engines, not a dataset `validate_dataset` accepts, which has 40 records.
- QueryEngines.SelectSearch: case folding and substring search are one abstract predicate shared by both engines; detail
  lookups, URL routing, the fields, sort and order constants (one flag) and HTTP status codes are left out.
- QueryEngines.Answer: the primary-key error of a duplicate id cannot occur on validated records.
- Experiment.RunExperiment: the judge's requests are an arbitrary list per case; report axes, categories, telemetry and
  the freeze checks on fixtures (one flag) are left out.
- Observer.ReadOnlyGovernanceObserver.Profile: frame identity is an opaque key and the phase label is given; a key may be
  reused, and a second call on it forgets the first, as in the code.
- CaptureAdmission.BoundOutcomes: the separate refusal reasons are one verdict; proposal validation, protocol shapes and
  provenance are abstract functions of tool and arguments.
- History.EligibleMeans: the policy's decision is an input; its reasons, `judge` and `agent_k` do not occur otherwise.
- Benchmark.Run: preflight rows, latency, tokens, agreement and injection metrics are left out.
- Older versions of the same components, freeze and manifest checks, runners, consoles and credential handling.
