/** The armed-dispatch experiment: one journaled start, one armed sequence number and at most one request per case,
    against a judge that may call the transport in any way it likes. */
module Experiment {
  import opened Options
  import opened Benchmark

  const SLOTS := 44

  /** A request body; bodies are equal exactly when their canonical hashes are. */
  type Payload(==, !new)

  /** Codes with which a guard aborts. */
  datatype Guard =
    | EndpointMismatch | PayloadMismatch | CredentialMismatch | AuthenticationRejected
    | FreezeMismatch | CallAccounting | CallBudget | EvidenceWrite | InstrumentException

  datatype ErrorCode = MalformedResponse | ResponseTooLarge | ResponseIncomplete | Refusal | OtherCode

  datatype Completion = Unknown | Complete | Incomplete | Refused

  datatype Metadata = Metadata(httpStatus: Option<int>, transportError: bool, returnedModel: Option<string>,
                               wirePass: bool, finished: bool, refusal: bool)

  datatype Structural = Structural(observerError: bool, truncated: bool, wirePass: bool)

  const NO_METADATA := Metadata(None, false, None, false, false, false)
  const NO_STRUCTURE := Structural(false, false, false)

  /** What the network and the observer make of a dispatched request. */
  datatype Answer =
    | Unreachable(partial: Option<int>)
    | Broken
    | Oversize(status: int)
    | Unobservable(status: int)
    | Observed(status: int, metadata: Metadata, structural: Structural, completion: Completion)

  datatype Request = Request(verifies: bool, endpointOk: bool, payload: Payload, credentialOk: bool, answer: Answer)

  datatype Reply = Delivered | Aborted(guard: Guard) | ProviderFault(code: ErrorCode) | TransportFault | Fault

  /** How the judge ends, whatever its requests returned. */
  datatype Verdict = Typed(available: bool) | RaisesProvider(code: ErrorCode) | RaisesAbort(guard: Guard) | RaisesOther

  // ---- The custody log ----

  /** Everything persisted or sent, in order. */
  datatype Event = Started(sequence: nat) | Dispatched(payload: Payload) | Recorded(sequence: nat)

  function Starts(log: seq<Event>): seq<nat> {
    if log == [] then [] else
      Starts(log[..|log| - 1]) + if log[|log| - 1].Started? then [log[|log| - 1].sequence] else []
  }

  function Sent(log: seq<Event>): seq<Payload> {
    if log == [] then [] else
      Sent(log[..|log| - 1]) + if log[|log| - 1].Dispatched? then [log[|log| - 1].payload] else []
  }

  function Results(log: seq<Event>): seq<nat> {
    if log == [] then [] else
      Results(log[..|log| - 1]) + if log[|log| - 1].Recorded? then [log[|log| - 1].sequence] else []
  }

  function UpTo(n: nat): seq<nat> { seq(n, i requires 0 <= i < n => i + 1) }

  /** In every prefix no more requests were sent than starts persisted, and what was sent is a prefix of the frozen
      payloads. */
  ghost predicate Orderly(log: seq<Event>, payloads: seq<Payload>) {
    forall k | 0 <= k <= |log| :: |Sent(log[..k])| <= |Starts(log[..k])| && Sent(log[..k]) <= payloads
  }

  lemma OrderlyAppends(log: seq<Event>, e: Event, payloads: seq<Payload>)
    requires Orderly(log, payloads)
    requires e.Dispatched? ==> |Sent(log)| < |Starts(log)| && Sent(log) + [e.payload] <= payloads
    ensures Orderly(log + [e], payloads)
    ensures Starts(log + [e]) == Starts(log) + if e.Started? then [e.sequence] else []
    ensures Sent(log + [e]) == Sent(log) + if e.Dispatched? then [e.payload] else []
    ensures Results(log + [e]) == Results(log) + if e.Recorded? then [e.sequence] else []
  {
    Appended(log, e);
    hide Starts, Sent, Results;
    var longer := log + [e];
    assert longer[..|longer|] == longer && log[..|log|] == log;
    forall k | 0 <= k <= |longer|
      ensures |Sent(longer[..k])| <= |Starts(longer[..k])| && Sent(longer[..k]) <= payloads
    {
      if k <= |log| { assert longer[..k] == log[..k]; }
    }
  }

  lemma Appended(log: seq<Event>, e: Event)
    ensures Starts(log + [e]) == Starts(log) + if e.Started? then [e.sequence] else []
    ensures Sent(log + [e]) == Sent(log) + if e.Dispatched? then [e.payload] else []
    ensures Results(log + [e]) == Results(log) + if e.Recorded? then [e.sequence] else []
  {
    assert (log + [e])[..|log + [e]| - 1] == log;
  }

  /** What each answer leaves behind, and what the judge gets of it. */
  predicate ReadsAs(answer: Answer, m: Metadata, s: Structural, c: Completion, reply: Reply) {
    match answer
    case Unreachable(partial) =>
      m == Metadata(partial, true, None, false, false, false) && s == NO_STRUCTURE && reply == TransportFault
    case Broken => m == NO_METADATA && s == NO_STRUCTURE && reply == Fault
    case Oversize(status) =>
      && m == Metadata(Some(status), false, None, false, false, false) && s == NO_STRUCTURE
      && reply == ProviderFault(ResponseTooLarge)
    case Unobservable(status) =>
      && m == Metadata(Some(status), false, None, false, false, false) && s == Structural(true, false, false)
      && reply == ProviderFault(MalformedResponse)
    case Observed(status, metadata, structural, completion) =>
      && m == metadata && s == structural && c == completion
      && (status >= 400 || completion == Complete ==> reply == Delivered)
      && (status < 400 && completion == Incomplete ==> reply == ProviderFault(ResponseIncomplete))
      && (status < 400 && completion == Refused ==> reply == ProviderFault(Refusal))
      && (status < 400 && completion == Unknown ==> reply == ProviderFault(MalformedResponse))
  }

  // ---- The transport ----

  class ExperimentTransport {
    const payloads: seq<Payload>
    const model: string
    const journals: bool                  // J4Transport: arms only what was journaled
    var calls: nat
    var armed: Option<nat>
    var journaled: Option<nat>
    var metadata: Metadata
    var structural: Structural
    var completion: Completion
    ghost var log: seq<Event>

    ghost predicate Valid()
      reads this
    {
      && calls <= SLOTS && calls <= |payloads|
      && Orderly(log, payloads) && Sent(log) == payloads[..calls]
      && (armed.Some? ==> armed.value == calls + 1 && calls < |Starts(log)|)
    }

    constructor (payloads: seq<Payload>, model: string, journals: bool)
      ensures Valid() && calls == 0 && armed.None? && log == []
      ensures this.payloads == payloads && this.model == model && this.journals == journals
    {
      this.payloads, this.model, this.journals := payloads, model, journals;
      calls, armed, journaled, log := 0, None, None, [];
      metadata, structural, completion := NO_METADATA, NO_STRUCTURE, Unknown;
    }

    method Arm(sequence: nat) returns (ok: bool)
      requires Valid() && sequence <= |Starts(log)|
      modifies this`armed
      ensures Valid()
      ensures ok <==> (journals ==> journaled == Some(sequence)) && old(armed).None? && sequence == calls + 1 <= SLOTS
      ensures armed == if ok then Some(sequence) else old(armed)
    {
      if journals && journaled != Some(sequence) { return false; }
      ok := armed.None? && sequence == calls + 1 && sequence <= SLOTS;
      if ok { armed := Some(sequence); }
    }

    /** Exactly the requests that reach the network. */
    predicate Admits(r: Request)
      reads this
    {
      && r.verifies && r.endpointOk && r.credentialOk
      && calls < SLOTS && calls < |payloads| && r.payload == payloads[calls]
      && armed == Some(calls + 1)
    }

    method HandleAsyncRequest(r: Request) returns (reply: Reply)
      requires Valid()
      modifies this`calls, this`armed, this`metadata, this`structural, this`completion, this`log
      ensures Valid()
      ensures old(Admits(r)) ==> armed.None? && calls == old(calls) + 1 && log == old(log) + [Dispatched(r.payload)]
      ensures !old(Admits(r)) ==> armed == old(armed) && calls == old(calls) && log == old(log) && reply.Aborted?
      ensures reply.Delivered? ==> old(Admits(r)) && r.answer.Observed?
      ensures old(Admits(r)) ==> ReadsAs(r.answer, metadata, structural, completion, reply)
      ensures reply.Aborted? ==> RefusedFor(r, reply.guard)
      // The journalling transport looks at its own account and at the payload before anything else.
      ensures journals && (old(calls) >= 44 || old(calls) >= |payloads|) ==> reply == Aborted(CallAccounting)
      ensures journals && old(calls) < 44 && old(calls) < |payloads| && r.payload != payloads[old(calls)] ==>
        reply == Aborted(PayloadMismatch)
    {
      hide ReadsAs, Orderly, Starts;
      if journals && !(calls < |payloads| && calls < SLOTS) { return Aborted(CallAccounting); }
      if journals && r.payload != payloads[calls] { return Aborted(PayloadMismatch); }
      metadata, structural, completion := NO_METADATA, NO_STRUCTURE, Unknown;
      if !r.verifies { return Aborted(FreezeMismatch); }
      if calls >= SLOTS || calls >= |payloads| { return Aborted(CallBudget); }
      if armed != Some(calls + 1) { return Aborted(CallAccounting); }
      if !r.endpointOk { return Aborted(EndpointMismatch); }
      if r.payload != payloads[calls] { return Aborted(PayloadMismatch); }
      if !r.credentialOk { return Aborted(CredentialMismatch); }
      OrderlyAppends(log, Dispatched(r.payload), payloads);
      armed, calls, log := None, calls + 1, log + [Dispatched(r.payload)];
      reply := Observe(r.answer);
    }

    /** The guard that refused a request is broken by it. */
    predicate RefusedFor(r: Request, guard: Guard)
      reads this
    {
      match guard
      case FreezeMismatch => !r.verifies
      case EndpointMismatch => !r.endpointOk
      case CredentialMismatch => !r.credentialOk
      case PayloadMismatch => calls < |payloads| && r.payload != payloads[calls]
      case CallBudget => calls >= 44 || calls >= |payloads|
      case CallAccounting => armed != Some(calls + 1) || (journals && (calls >= 44 || calls >= |payloads|))
      case _ => false
    }

    method Observe(answer: Answer) returns (reply: Reply)
      requires metadata == NO_METADATA && structural == NO_STRUCTURE && completion == Unknown
      modifies this`metadata, this`structural, this`completion
      ensures !reply.Aborted? && (reply.Delivered? ==> answer.Observed?)
      ensures ReadsAs(answer, metadata, structural, completion, reply)
    {
      match answer
      case Unreachable(partial) =>
        metadata := metadata.(httpStatus := partial, transportError := true);
        reply := TransportFault;
      case Broken => reply := Fault;
      case Oversize(status) =>
        metadata := metadata.(httpStatus := Some(status));
        reply := ProviderFault(ResponseTooLarge);
      case Unobservable(status) =>
        metadata, structural := metadata.(httpStatus := Some(status)), Structural(true, false, false);
        reply := ProviderFault(MalformedResponse);
      case Observed(status, m, s, c) =>
        metadata, structural, completion := m, s, c;
        if status < 400 && c != Complete {
          reply := ProviderFault(match c case Incomplete => ResponseIncomplete case Refused => Refusal
                                 case Unknown => MalformedResponse);
        } else {
          reply := Delivered;
        }
    }
  }

  // ---- One case ----

  datatype Assessed = Assessed(outcome: Outcome, code: Option<ErrorCode>, abort: Option<Guard>, telemetry: Metadata)

  function Assess(v: Verdict, m: Metadata): Assessed {
    var denied := if m.httpStatus == Some(401) || m.httpStatus == Some(403) then Some(AuthenticationRejected) else None;
    match v
    case Typed(available) =>
      Assessed(if available && m.wirePass && m.finished && !m.refusal then Valid else SchemaFailure, None, denied, m)
    case RaisesProvider(code) =>
      Assessed(if m.transportError then TransportFailure
               else if m.httpStatus.Some? && m.httpStatus.value >= 400 then ProviderFailure
               else if code == OtherCode then OtherFailure else SchemaFailure,
               Some(code), denied, m)
    case RaisesAbort(guard) =>
      Assessed(OtherFailure, None, if denied.Some? then denied else Some(guard), m)
    case RaisesOther =>
      Assessed(OtherFailure, None, if denied.Some? then denied else Some(InstrumentException), m)
  }

  datatype Fatal =
    | RequestBoundaryViolation | ProviderHttpFailure | FreezeOrInstrumentMismatch | CallAccountingViolation
    | UnexpectedInstrumentFailure | ReturnedModelMismatch | ObserverEvidenceFailure | TransportBroken
    | ResponseSizeBound | EvidenceWriteFailure

  function FatalReason(row: Assessed, structural: Structural, model: string, calls: nat, before: nat): Option<Fatal> {
    if row.abort in {Some(EndpointMismatch), Some(PayloadMismatch), Some(CredentialMismatch)} then
      Some(RequestBoundaryViolation)
    else if row.abort == Some(AuthenticationRejected) then Some(ProviderHttpFailure)
    else if row.abort == Some(FreezeMismatch) then Some(FreezeOrInstrumentMismatch)
    else if calls > SLOTS || calls - before != 1 then Some(CallAccountingViolation)
    else if row.abort.Some? then Some(UnexpectedInstrumentFailure)
    else if row.telemetry.returnedModel.Some? && row.telemetry.returnedModel.value != model then
      Some(ReturnedModelMismatch)
    else if structural.observerError || structural.truncated then Some(ObserverEvidenceFailure)
    else if row.outcome == ProviderFailure then Some(ProviderHttpFailure)
    else if row.outcome == TransportFailure then Some(TransportBroken)
    else if row.code == Some(ResponseTooLarge) then Some(ResponseSizeBound)
    else if row.telemetry.returnedModel.None? then Some(ObserverEvidenceFailure)
    else if row.outcome != Valid && row.outcome != SchemaFailure then Some(UnexpectedInstrumentFailure)
    else if (row.outcome == Valid) != structural.wirePass then Some(ObserverEvidenceFailure)
    else None
  }

  /** An observation does not stop the experiment exactly when one clean, identified, consistent exchange stands
      behind it. */
  lemma NotFatalMeans(v: Verdict, m: Metadata, s: Structural, model: string, calls: nat, before: nat)
    ensures FatalReason(Assess(v, m), s, model, calls, before).None? <==>
      && calls == before + 1 <= SLOTS
      && m.returnedModel == Some(model) && !s.observerError && !s.truncated
      && m.httpStatus != Some(401) && m.httpStatus != Some(403)
      && match v
         case Typed(available) => (available && m.wirePass && m.finished && !m.refusal) == s.wirePass
         case RaisesProvider(code) =>
           && code != OtherCode && code != ResponseTooLarge && !m.transportError && !s.wirePass
           && (m.httpStatus.Some? ==> m.httpStatus.value < 400)
         case RaisesAbort(guard) => false
         case RaisesOther => false
  {
  }

  /** What each outcome says of how the judge ended and of the exchange it saw. */
  lemma AssessMeans(v: Verdict, m: Metadata)
    ensures var row := Assess(v, m);
      && row.telemetry == m && row.outcome != NotAttempted
      && (row.outcome == Valid <==> v == Typed(true) && m.wirePass && m.finished && !m.refusal)
      && (row.outcome == TransportFailure <==> v.RaisesProvider? && m.transportError)
      && (row.outcome == ProviderFailure <==>
            v.RaisesProvider? && !m.transportError && m.httpStatus.Some? && m.httpStatus.value >= 400)
      && (row.outcome == OtherFailure <==>
            || v.RaisesAbort? || v.RaisesOther?
            || (v == RaisesProvider(OtherCode) && !m.transportError
                && (m.httpStatus.Some? ==> m.httpStatus.value < 400)))
      && (row.code.Some? <==> v.RaisesProvider?) && (row.code.Some? ==> row.code.value == v.code)
      && (m.httpStatus in {Some(401), Some(403)} ==> row.abort == Some(AuthenticationRejected))
      && (m.httpStatus !in {Some(401), Some(403)} ==>
            row.abort == match v
                         case RaisesAbort(guard) => Some(guard)
                         case RaisesOther => Some(InstrumentException)
                         case _ => None)
  {
  }

  /** No fatal reason is given without its cause. */
  lemma FatalIsTrue(row: Assessed, s: Structural, model: string, calls: nat, before: nat)
    ensures match FatalReason(row, s, model, calls, before)
      case None => true
      case Some(RequestBoundaryViolation) =>
        row.abort in {Some(EndpointMismatch), Some(PayloadMismatch), Some(CredentialMismatch)}
      case Some(ProviderHttpFailure) => row.abort == Some(AuthenticationRejected) || row.outcome == ProviderFailure
      case Some(FreezeOrInstrumentMismatch) => row.abort == Some(FreezeMismatch)
      case Some(CallAccountingViolation) => calls != before + 1 || calls > 44
      case Some(UnexpectedInstrumentFailure) => row.abort.Some? || row.outcome in {OtherFailure, NotAttempted}
      case Some(ReturnedModelMismatch) =>
        row.telemetry.returnedModel.Some? && row.telemetry.returnedModel.value != model
      case Some(ObserverEvidenceFailure) =>
        || s.observerError || s.truncated || row.telemetry.returnedModel.None?
        || (row.outcome == Valid) != s.wirePass
      case Some(TransportBroken) => row.outcome == TransportFailure
      case Some(ResponseSizeBound) => row.code == Some(ResponseTooLarge)
      case Some(EvidenceWriteFailure) => false
  {
  }

  /** Which reason wins: the named guards before the accounting, the accounting before every other guard, and all of
      them before the evidence, which is read in one order. */
  lemma FatalPrecedence(row: Assessed, s: Structural, model: string, calls: nat, before: nat)
    ensures var reason := FatalReason(row, s, model, calls, before);
      var boundary := row.abort in {Some(EndpointMismatch), Some(PayloadMismatch), Some(CredentialMismatch)};
      var named := boundary || row.abort in {Some(AuthenticationRejected), Some(FreezeMismatch)};
      var counted := calls == before + 1 && calls <= 44;
      var returned := row.telemetry.returnedModel;
      && (boundary ==> reason == Some(RequestBoundaryViolation))
      && (row.abort == Some(AuthenticationRejected) ==> reason == Some(ProviderHttpFailure))
      && (row.abort == Some(FreezeMismatch) ==> reason == Some(FreezeOrInstrumentMismatch))
      && (!named && !counted ==> reason == Some(CallAccountingViolation))
      && (!named && counted && row.abort.Some? ==> reason == Some(UnexpectedInstrumentFailure))
      && (row.abort.None? && counted ==>
            if returned.Some? && returned.value != model then reason == Some(ReturnedModelMismatch)
            else if s.observerError || s.truncated then reason == Some(ObserverEvidenceFailure)
            else match row.outcome
              case ProviderFailure => reason == Some(ProviderHttpFailure)
              case TransportFailure => reason == Some(TransportBroken)
              case Valid =>
                row.code != Some(ResponseTooLarge) && returned.Some? ==>
                  reason == if s.wirePass then None else Some(ObserverEvidenceFailure)
              case SchemaFailure =>
                row.code != Some(ResponseTooLarge) && returned.Some? ==>
                  reason == if s.wirePass then Some(ObserverEvidenceFailure) else None
              case _ =>
                row.code != Some(ResponseTooLarge) && returned.Some? ==> reason == Some(UnexpectedInstrumentFailure))
  {
  }

  lemma FatalMeans(v: Verdict, m: Metadata, s: Structural, model: string, calls: nat, before: nat)
    ensures Assess(v, m).outcome != NotAttempted
    ensures FatalReason(Assess(v, m), s, model, calls, before).None? ==> calls == before + 1
  {
  }

  datatype Case = Case(verifies: bool, startPersists: bool, requests: seq<Request>, verdict: Verdict,
                       resultPersists: bool)

  /** The judge calls the transport as often as it likes; at most one call gets through, and only if armed. */
  method AssessCase(t: ExperimentTransport, c: Case) returns (row: Assessed)
    requires t.Valid()
    modifies t`calls, t`armed, t`metadata, t`structural, t`completion, t`log
    ensures t.Valid() && row == Assess(c.verdict, t.metadata)
    ensures t.calls == old(t.calls) ==> t.log == old(t.log) && t.armed == old(t.armed)
    ensures t.calls != old(t.calls) ==>
      && old(t.armed).Some? && t.armed.None?
      && t.calls == old(t.calls) + 1 <= |t.payloads| && t.log == old(t.log) + [Dispatched(t.payloads[old(t.calls)])]
    // One gets through exactly if one of the judge's requests may, and its answer is what the assessment sees.
    ensures t.calls != old(t.calls) <==> exists i :: 0 <= i < |c.requests| && old(t.Admits(c.requests[i]))
    ensures c.requests == [] ==> t.metadata == NO_METADATA
    ensures |c.requests| == 1 && old(t.Admits(c.requests[0])) ==>
      exists reply :: ReadsAs(c.requests[0].answer, t.metadata, t.structural, t.completion, reply)
  {
    t.metadata := NO_METADATA;
    for i := 0 to |c.requests|
      invariant t.Valid()
      invariant t.calls == old(t.calls) ==> t.log == old(t.log) && t.armed == old(t.armed)
      invariant t.calls != old(t.calls) ==>
        && old(t.armed).Some? && t.armed.None?
        && t.calls == old(t.calls) + 1 <= |t.payloads| && t.log == old(t.log) + [Dispatched(t.payloads[old(t.calls)])]
      invariant t.calls != old(t.calls) <==> exists j :: 0 <= j < i && old(t.Admits(c.requests[j]))
      invariant i == 0 ==> t.metadata == NO_METADATA
      invariant i == 1 && old(t.Admits(c.requests[0])) ==>
        exists reply :: ReadsAs(c.requests[0].answer, t.metadata, t.structural, t.completion, reply)
    {
      hide ReadsAs;
      var reply := t.HandleAsyncRequest(c.requests[i]);
    }
    row := Assess(c.verdict, t.metadata);
  }

  // ---- The experiment ----

  datatype ReportRow = ReportRow(entry: Entry, outcome: Outcome, requests: nat, fatal: Option<Fatal>)

  datatype Classification = ExperimentIncomplete | CompleteAllValid | CompleteNonvalidated

  datatype Ending =
    | RefusedToRun
    | ArmRaised
    | Reported(rows: seq<ReportRow>, attempted: nat, aborted: Option<Fatal>, status: Classification)

  function Classify(rows: seq<ReportRow>, attempted: nat, aborted: Option<Fatal>): Classification
    requires attempted <= |rows|
  {
    if aborted.Some? || attempted != SLOTS then ExperimentIncomplete
    else if forall i | 0 <= i < attempted :: rows[i].outcome == Valid then CompleteAllValid
    else CompleteNonvalidated
  }

  /** All rows but the last attempted one are clean; a run without an abort has only clean rows. */
  predicate Clean(row: ReportRow) { row.requests == 1 && row.fatal.None? }

  predicate Attempted(row: ReportRow, entry: Entry) {
    && row.entry == entry && row.outcome != NotAttempted && row.requests <= 1
    && (row.outcome == Valid ==> row.requests == 1 && row.fatal.None?)
  }

  predicate RowsFit(rows: seq<ReportRow>, schedule: seq<Entry>) {
    && |rows| <= |schedule|
    && (forall i | 0 <= i < |rows| :: Attempted(rows[i], schedule[i]))
    && (forall i | 0 <= i < |rows| - 1 :: Clean(rows[i]))
  }

  lemma NothingYet(schedule: seq<Entry>)
    ensures RowsFit([], schedule)
  {
  }

  lemma RowsExtend(rows: seq<ReportRow>, row: ReportRow, schedule: seq<Entry>)
    requires RowsFit(rows, schedule) && |rows| < |schedule| && Attempted(row, schedule[|rows|])
    requires rows != [] ==> Clean(rows[|rows| - 1])
    ensures RowsFit(rows + [row], schedule)
  {
  }

  /** The report of a stopped loop, its remaining entries not attempted. */
  function Report(rows: seq<ReportRow>, schedule: seq<Entry>, aborted: Option<Fatal>): (e: Ending)
    requires RowsFit(rows, schedule)
    ensures e.Reported? && e.attempted == |rows| && e.aborted == aborted && Shape(e, schedule)
    ensures e.rows[..|rows|] == rows
  {
    var all := Padded(rows, schedule);
    assert all[..|rows|] == rows;
    Reported(all, |rows|, aborted, Classify(all, |rows|, aborted))
  }

  function Padded(rows: seq<ReportRow>, schedule: seq<Entry>): (all: seq<ReportRow>)
    requires |rows| <= |schedule|
    ensures |all| == |schedule| && forall i | 0 <= i < |rows| :: all[i] == rows[i]
    ensures forall i | |rows| <= i < |schedule| :: all[i] == ReportRow(schedule[i], NotAttempted, 0, None)
  {
    seq(|schedule|, i requires 0 <= i < |schedule| =>
      if i < |rows| then rows[i] else ReportRow(schedule[i], NotAttempted, 0, None))
  }

  /** One row per scheduled entry, in order; the attempted ones first, all of them clean but perhaps the last. */
  predicate Shape(e: Ending, schedule: seq<Entry>) {
    && e.Reported? && e.attempted <= |e.rows| == |schedule|
    && (forall i | 0 <= i < e.attempted :: Attempted(e.rows[i], schedule[i]))
    && (forall i | 0 <= i < e.attempted - 1 :: Clean(e.rows[i]))
    && (forall i | e.attempted <= i < |schedule| :: e.rows[i] == ReportRow(schedule[i], NotAttempted, 0, None))
    && Classified(e)
  }

  /** Complete means unaborted with all 44 attempted; all valid means complete with 44 valid rows. */
  predicate Classified(e: Ending)
    requires e.Reported?
  {
    && (e.status != ExperimentIncomplete <==> e.aborted.None? && e.attempted == 44)
    && (e.status == CompleteAllValid <==>
          && e.aborted.None? && e.attempted == 44
          && forall i | 0 <= i < e.attempted <= |e.rows| :: e.rows[i].outcome == Valid)
  }

  /** Why a case is the last one attempted. */
  function StopAfter(c: Case, row: ReportRow): Option<Fatal> {
    if c.resultPersists then row.fatal else Some(EvidenceWriteFailure)
  }

  /** Why a case is not attempted after a clean one. */
  function StopBefore(c: Case, usedTransport: bool): Option<Fatal> {
    if !c.verifies then Some(FreezeOrInstrumentMismatch)
    else if usedTransport then Some(CallAccountingViolation)
    else if !c.startPersists then Some(EvidenceWriteFailure)
    else None
  }

  /** One pass of the loop from the journaled start to the persisted result. */
  method Observe(t: ExperimentTransport, c: Case, entry: Entry, sequence: nat)
    returns (armed: bool, row: ReportRow, aborted: Option<Fatal>)
    requires t.Valid() && t.armed.None? && t.calls == sequence - 1 && 1 <= sequence <= SLOTS
    requires sequence <= |Starts(t.log)| && (t.journals ==> t.journaled == Some(sequence))
    modifies t`calls, t`armed, t`metadata, t`structural, t`completion, t`log
    ensures armed && t.Valid() && Attempted(row, entry)
    ensures old(t.log) <= t.log && Starts(t.log) == Starts(old(t.log))
    ensures Results(t.log) == Results(old(t.log)) + if c.resultPersists then [sequence] else []
    ensures aborted.None? ==> Clean(row) && c.resultPersists && t.calls == sequence && t.armed.None?
    ensures aborted == StopAfter(c, row)
    ensures row.requests == t.calls - old(t.calls)
    ensures row.outcome == Valid <==> row.fatal.None? && Assess(c.verdict, t.metadata).outcome == Valid
    ensures Assess(c.verdict, t.metadata).outcome != Valid ==> row.outcome == Assess(c.verdict, t.metadata).outcome
    ensures row.fatal == FatalReason(Assess(c.verdict, t.metadata), t.structural, t.model, t.calls, sequence - 1)
  {
    hide Starts, Sent, Results, Orderly, Assess, FatalReason;
    row, aborted := ReportRow(entry, OtherFailure, 0, None), None;
    armed := t.Arm(sequence);
    if !armed { return; }
    ghost var before := t.log;
    var assessed := AssessCase(t, c);
    if t.log != before { OrderlyAppends(before, t.log[|before|], t.payloads); }
    var fatal := FatalReason(assessed, t.structural, t.model, t.calls, sequence - 1);
    FatalMeans(c.verdict, t.metadata, t.structural, t.model, t.calls, sequence - 1);
    var outcome := if fatal.Some? && assessed.outcome == Valid then OtherFailure else assessed.outcome;
    row := ReportRow(entry, outcome, t.calls - (sequence - 1), fatal);
    aborted := fatal;
    if c.resultPersists {
      OrderlyAppends(t.log, Recorded(sequence), t.payloads);
      t.log := t.log + [Recorded(sequence)];
    } else {
      aborted := Some(EvidenceWriteFailure);
    }
  }

  /** Persisting the start record; only after it may the sequence number be armed. */
  method PersistStart(t: ExperimentTransport, c: Case, sequence: nat) returns (ok: bool)
    requires t.Valid()
    modifies t`journaled, t`log
    ensures t.Valid() && ok == c.startPersists
    ensures t.log == if ok then old(t.log) + [Started(sequence)] else old(t.log)
    ensures Starts(t.log) == Starts(old(t.log)) + if ok then [sequence] else []
    ensures Results(t.log) == Results(old(t.log))
    ensures t.journaled == if ok && t.journals then Some(sequence) else old(t.journaled)
  {
    ok := c.startPersists;
    if ok {
      OrderlyAppends(t.log, Started(sequence), t.payloads);
      t.log := t.log + [Started(sequence)];
      if t.journals { t.journaled := Some(sequence); }
    }
  }

  method RunExperiment(frozen: bool, schedule: seq<Entry>, t: ExperimentTransport, cases: seq<Case>)
    returns (ending: Ending)
    requires t.Valid() && t.armed.None? && |cases| == |schedule|
    modifies t
    ensures t.Valid() && old(t.log) <= t.log && !ending.ArmRaised?
    ensures ending.RefusedToRun? <==> !frozen || |schedule| != SLOTS
    ensures ending.RefusedToRun? ==> t.log == old(t.log)
    ensures ending.Reported? ==> Shape(ending, schedule)
    ensures ending.Reported? ==>
      && Starts(t.log) == Starts(old(t.log)) + UpTo(ending.attempted)
      && (Results(t.log) == Results(old(t.log)) + UpTo(ending.attempted)
          || (ending.attempted > 0 && ending.aborted == Some(EvidenceWriteFailure)
              && Results(t.log) == Results(old(t.log)) + UpTo(ending.attempted - 1)))
    ensures ending.Reported? && ending.aborted.Some? ==>
      var n := ending.attempted;
      || (n > 0 && ending.aborted == StopAfter(cases[n - 1], ending.rows[n - 1]))
      || (n < SLOTS && ending.aborted == StopBefore(cases[n], n == 0 && old(t.calls) != 0))
    ensures ending.Reported? && ending.aborted.None? ==>
      && old(t.calls) == 0 && t.calls == 44 == ending.attempted == |ending.rows|
      && Results(t.log) == Results(old(t.log)) + UpTo(44)
      && Sent(old(t.log)) == [] && |t.payloads| >= 44 && Sent(t.log) == t.payloads[..44]
      && (forall r | r in ending.rows :: r.requests == 1 && r.fatal.None? && r.outcome != NotAttempted)
    ensures ending.Reported? ==>
      && (ending.status != ExperimentIncomplete <==> ending.aborted.None?)
      && (ending.status == CompleteAllValid <==>
            ending.aborted.None? && forall r | r in ending.rows :: r.outcome == Valid)
  {
    hide Starts, Sent, Results, Orderly, Attempted, RowsFit, Shape, Clean;
    if !frozen || |schedule| != SLOTS { return RefusedToRun; }
    var rows: seq<ReportRow>, aborted: Option<Fatal>, n := [], None, 0;
    assert RowsFit(rows, schedule) by { NothingYet(schedule); }
    ghost var base := t.log;
    assert UpTo(0) == [];
    while n < |schedule| && aborted.None?
      invariant t.Valid() && base <= t.log && |rows| == n <= |schedule| && RowsFit(rows, schedule)
      invariant Starts(t.log) == Starts(base) + UpTo(n)
      invariant Results(t.log) == Results(base) + UpTo(n)
        || (n > 0 && aborted == Some(EvidenceWriteFailure) && Results(t.log) == Results(base) + UpTo(n - 1))
      invariant aborted.None? ==>
        && t.armed.None? && (n > 0 ==> old(t.calls) == 0 && t.calls == n && Clean(rows[n - 1]))
        && Results(t.log) == Results(base) + UpTo(n)
      invariant n == 0 ==> t.calls == old(t.calls) && t.log == base
      invariant aborted.Some? ==>
        || (n > 0 && aborted == StopAfter(cases[n - 1], rows[n - 1]))
        || (n < SLOTS && aborted == StopBefore(cases[n], n == 0 && old(t.calls) != 0))
      decreases |schedule| - n, aborted.None?
    {
      var before := t.calls;
      if !cases[n].verifies {
        aborted := Some(FreezeOrInstrumentMismatch);
      } else if before >= SLOTS || before != n {
        aborted := Some(CallAccountingViolation);
      } else {
        var persisted := PersistStart(t, cases[n], n + 1);
        if !persisted {
          aborted := Some(EvidenceWriteFailure);
        } else {
          assert UpTo(n + 1) == UpTo(n) + [n + 1];
          var armed, row, stop := Observe(t, cases[n], schedule[n], n + 1);
          if !armed { return ArmRaised; }
          RowsExtend(rows, row, schedule);
          rows, aborted, n := rows + [row], stop, n + 1;
        }
      }
    }
    ending := Report(rows, schedule, aborted);
    StatusOf(ending, schedule);
    if aborted.None? { AllClean(ending, schedule, rows); }
  }

  lemma StatusOf(e: Ending, schedule: seq<Entry>)
    requires Shape(e, schedule) && |schedule| == 44 && (e.aborted.None? ==> e.attempted == 44)
    ensures e.status != ExperimentIncomplete <==> e.aborted.None?
    ensures e.status == CompleteAllValid <==> e.aborted.None? && forall r | r in e.rows :: r.outcome == Valid
  {
    assert forall i | 0 <= i < |e.rows| :: e.rows[i] in e.rows;
  }

  lemma AllClean(e: Ending, schedule: seq<Entry>, rows: seq<ReportRow>)
    requires Shape(e, schedule) && e.attempted == |rows| == |schedule| == 44 && e.rows[..44] == rows && Clean(rows[43])
    ensures forall r | r in e.rows :: r.requests == 1 && r.fatal.None? && r.outcome != NotAttempted
  {
    forall r | r in e.rows ensures r.requests == 1 && r.fatal.None? && r.outcome != NotAttempted {
      var i :| 0 <= i < 44 && e.rows[i] == r;
      assert Attempted(e.rows[i], schedule[i]) && Clean(e.rows[i]);
    }
  }
}
