/** Assessing whether an attempt history is eligible: a pure judgement over frozen evidence and independent facts. */
module History {
  import opened Options

  type Id(==, !new)

  const MAX_ATTEMPTS := 32

  datatype Decision = Deny | ReviewRequired | Permit
  datatype Intent = NotCommitted | Committed | IntentUnknown
  datatype Delegation = NotDelegated | Delegated | DelegationUnknown
  datatype Outcome = TechnicalFailure | DispatchUnknown | ResponseReceived | PolicyStop | Incomplete

  datatype Attempt = Attempt(id: Id, operationId: Id, policy: Decision, intent: Intent, delegation: Delegation,
                             outcome: Outcome, terminal: bool, recordedAt: nat)

  datatype Identity = Identity(caller: Id, machine: bool, servicePrincipal: Id, session: Id, credential: Id,
                               expiresAt: nat, rest: Id)

  datatype Evidence = Evidence(producer: Id, observedAt: nat, identity: Identity, operationId: Id, operation: Id,
                               attempts: seq<Attempt>, recoveryHold: bool, bindingReference: Option<Id>)

  /** Independent facts; `expected` is the evidence whose digest they name. */
  datatype Trust = Trust(expected: Evidence, producer: Id, identity: Identity, operationId: Id, operation: Id,
                         attemptIds: seq<Id>, observedAt: nat, validUntil: nat, callerAuthenticated: bool,
                         trustedProxy: bool, appAccess: bool, machineAuthorized: bool, recoveryHold: bool,
                         heldOperations: set<Id>, usedOperations: set<Id>, usedSessions: set<Id>,
                         revokedCredentials: set<Id>)

  datatype Document = MissingOrOversized | Unreadable | Parsed(evidence: Evidence)

  datatype Verification = Unavailable | NoFacts | Facts(trust: Trust)

  datatype Admission = Stop | Hold | Rejected | EligibleOnly

  datatype Reason =
    | InvalidClock | MissingEvidence | MalformedEvidence | VerifierUnavailable | NoTrust | InvalidTrust
    | DigestMismatch | OperationMismatch | StaleObservation
    | IdentityMismatch | UnverifiedIngress | PrincipalConfusion | MachineNotAuthorized | CredentialExpired
    | SessionReplayed | BindingTransferred
    | HistoryIds | ForeignOperation | HistoryTime | PolicyAndTransport | DelegationWithoutIntent
    | UnsupportedNotDispatched | ContradictoryPolicyStop | ResponseWithoutDispatch
    | ContradictoryRecovery | ChannelADeny | ChannelAReview | RecoveryOrReplay | UncertainDispatch
    | NoCompleteProof | NotDispatched | BPolicyDeny | BPolicyReview | BPermitIsNotExecution

  datatype Assessment = Assessment(verified: bool, admission: Admission, reason: Reason, policy: Option<Decision>)

  function Failure(r: Reason): Assessment { Assessment(false, Hold, r, None) }

  function Refusal(r: Reason): Assessment { Assessment(false, Rejected, r, None) }

  // ---- The history ----

  function AttemptError(a: Attempt, previous: int, e: Evidence): Option<Reason> {
    if a.operationId != e.operationId then Some(ForeignOperation)
    else if !(previous <= a.recordedAt <= e.observedAt) then Some(HistoryTime)
    else if a.policy != Permit && (a.intent != NotCommitted || a.delegation != NotDelegated)
    then Some(PolicyAndTransport)
    else if a.delegation == Delegated && a.intent != Committed then Some(DelegationWithoutIntent)
    else if a.outcome == TechnicalFailure
            && (a.policy != Permit || !a.terminal || a.delegation != NotDelegated || a.intent == IntentUnknown) then
      Some(UnsupportedNotDispatched)
    else if a.outcome == PolicyStop && (a.policy == Permit || !a.terminal) then Some(ContradictoryPolicyStop)
    else if a.outcome == ResponseReceived && (a.delegation != Delegated || !a.terminal)
    then Some(ResponseWithoutDispatch)
    else None
  }

  /** The time the attempt before i was recorded. */
  function Previous(attempts: seq<Attempt>, i: nat): int
    requires i <= |attempts|
  {
    if i == 0 then -1 else attempts[i - 1].recordedAt
  }

  predicate NoErrorBefore(e: Evidence, n: nat)
    requires n <= |e.attempts|
  {
    forall i | 0 <= i < n :: AttemptError(e.attempts[i], Previous(e.attempts, i), e).None?
  }

  function Ids(attempts: seq<Attempt>): seq<Id> { seq(|attempts|, i requires 0 <= i < |attempts| => attempts[i].id) }

  predicate Distinct(ids: seq<Id>) { forall i, j | 0 <= i < j < |ids| :: ids[i] != ids[j] }

  /** The first attempt with an error decides, at its first failing check. */
  method HistoryError(e: Evidence, t: Trust) returns (r: Option<Reason>)
    ensures r == HistoryVerdict(e, t)
  {
    hide AttemptError, Distinct;
    var ids := Ids(e.attempts);
    if ids != t.attemptIds || !Distinct(ids) { return Some(HistoryIds); }
    var previous: int := -1;
    for i := 0 to |e.attempts|
      invariant previous == Previous(e.attempts, i) && NoErrorBefore(e, i)
      invariant HistoryVerdict(e, t) == FirstError(e, i)
    {
      r := AttemptError(e.attempts[i], previous, e);
      if r.Some? { return; }
      previous := e.attempts[i].recordedAt;
    }
    r := None;
  }

  function FirstError(e: Evidence, i: nat): Option<Reason>
    requires i <= |e.attempts|
    decreases |e.attempts| - i
  {
    if i == |e.attempts| then None
    else
      var r := AttemptError(e.attempts[i], Previous(e.attempts, i), e);
      if r.Some? then r else FirstError(e, i + 1)
  }

  function HistoryVerdict(e: Evidence, t: Trust): Option<Reason> {
    if Ids(e.attempts) != t.attemptIds || !Distinct(Ids(e.attempts)) then Some(HistoryIds) else FirstError(e, 0)
  }

  lemma {:induction false} NoErrorMeans(e: Evidence, i: nat)
    requires i <= |e.attempts|
    ensures FirstError(e, i).None? <==>
      forall j | i <= j < |e.attempts| :: AttemptError(e.attempts[j], Previous(e.attempts, j), e).None?
    decreases |e.attempts| - i
  {
    if i < |e.attempts| { NoErrorMeans(e, i + 1); }
  }

  /** What one attempt may claim, all its checks at once. */
  predicate Plausible(a: Attempt) {
    && (a.policy != Permit ==> a.intent == NotCommitted && a.delegation == NotDelegated)
    && (a.delegation == Delegated ==> a.intent == Committed)
    && match a.outcome
       case TechnicalFailure =>
         a.policy == Permit && a.terminal && a.delegation == NotDelegated && a.intent != IntentUnknown
       case PolicyStop => a.policy != Permit && a.terminal
       case ResponseReceived => a.delegation == Delegated && a.terminal
       case DispatchUnknown => true
       case Incomplete => true
  }

  /** An error-free history: the trusted ids in order and distinct, one operation, times that never go back nor past
      the observation, and plausible attempts. */
  lemma ErrorFreeMeans(e: Evidence, t: Trust)
    ensures HistoryVerdict(e, t).None? <==>
      && Ids(e.attempts) == t.attemptIds
      && (forall i, j | 0 <= i < j < |t.attemptIds| :: t.attemptIds[i] != t.attemptIds[j])
      && (forall a | a in e.attempts :: a.operationId == e.operationId && a.recordedAt <= e.observedAt && Plausible(a))
      && (forall i, j | 0 <= i < j < |e.attempts| :: e.attempts[i].recordedAt <= e.attempts[j].recordedAt)
  {
    NoErrorMeans(e, 0);
    HistoryShape(e);
  }

  lemma AttemptFine(a: Attempt, previous: int, e: Evidence)
    ensures AttemptError(a, previous, e).None? <==>
      a.operationId == e.operationId && previous <= a.recordedAt <= e.observedAt && Plausible(a)
  {
  }

  lemma HistoryShape(e: Evidence)
    ensures NoErrorBefore(e, |e.attempts|) <==>
      && (forall a | a in e.attempts :: a.operationId == e.operationId && a.recordedAt <= e.observedAt && Plausible(a))
      && (forall i, j | 0 <= i < j < |e.attempts| :: e.attempts[i].recordedAt <= e.attempts[j].recordedAt)
  {
    hide AttemptError, Plausible;
    forall i | 0 <= i < |e.attempts|
      ensures AttemptError(e.attempts[i], Previous(e.attempts, i), e).None? <==>
        && e.attempts[i].operationId == e.operationId
        && Previous(e.attempts, i) <= e.attempts[i].recordedAt <= e.observedAt && Plausible(e.attempts[i])
    {
      AttemptFine(e.attempts[i], Previous(e.attempts, i), e);
    }
    if NoErrorBefore(e, |e.attempts|) {
      forall i, j | 0 <= i < j < |e.attempts| ensures e.attempts[i].recordedAt <= e.attempts[j].recordedAt {
        TimesGrow(e, i, j);
      }
    }
  }

  lemma {:induction false} TimesGrow(e: Evidence, i: nat, j: nat)
    requires i < j < |e.attempts| && NoErrorBefore(e, |e.attempts|)
    ensures e.attempts[i].recordedAt <= e.attempts[j].recordedAt
    decreases j
  {
    hide AttemptError, Plausible;
    assert AttemptError(e.attempts[j], Previous(e.attempts, j), e).None?;
    AttemptFine(e.attempts[j], Previous(e.attempts, j), e);
    if i < j - 1 { TimesGrow(e, i, j - 1); }
  }

  // ---- The assessment ----

  function IdentityError(e: Evidence, t: Trust, now: int): Option<Reason> {
    if e.identity != t.identity then Some(IdentityMismatch)
    else if !(t.callerAuthenticated && t.trustedProxy && t.appAccess) then Some(UnverifiedIngress)
    else if e.identity.caller == e.identity.servicePrincipal then Some(PrincipalConfusion)
    else if e.identity.machine && !t.machineAuthorized then Some(MachineNotAuthorized)
    else if e.identity.expiresAt <= now || e.identity.credential in t.revokedCredentials then Some(CredentialExpired)
    else if e.identity.session in t.usedSessions then Some(SessionReplayed)
    else if e.bindingReference.Some? then Some(BindingTransferred)
    else None
  }

  function FactError(e: Evidence, t: Trust, now: int): Option<Reason> {
    if !(1 <= |t.attemptIds| <= MAX_ATTEMPTS) then Some(InvalidTrust)
    else if e != t.expected then Some(DigestMismatch)
    else if e.producer != t.producer || e.operationId != t.operationId || e.operation != t.operation then
      Some(OperationMismatch)
    else if e.observedAt != t.observedAt || !(t.observedAt <= now < t.validUntil)
            || !(0 < t.validUntil - t.observedAt <= 300) then Some(StaleObservation)
    else None
  }

  function InspectPolicy(b: Decision): Assessment {
    match b
    case Deny => Assessment(true, Stop, BPolicyDeny, Some(b))
    case ReviewRequired => Assessment(true, Hold, BPolicyReview, Some(b))
    case Permit => Assessment(true, EligibleOnly, BPermitIsNotExecution, Some(b))
  }

  function Judge(e: Evidence, t: Trust, inspect: bool, b: Decision): Assessment {
    if HistoryVerdict(e, t).Some? then Failure(HistoryVerdict(e, t).value)
    else if e.recoveryHold != t.recoveryHold then Failure(ContradictoryRecovery)
    else if exists a | a in e.attempts :: a.policy == Deny then Assessment(true, Stop, ChannelADeny, None)
    else if exists a | a in e.attempts :: a.policy == ReviewRequired then Assessment(true, Hold, ChannelAReview, None)
    else if t.recoveryHold || e.operationId in t.heldOperations || e.operationId in t.usedOperations then
      Assessment(true, Hold, RecoveryOrReplay, None)
    else if exists a | a in e.attempts :: a.outcome == DispatchUnknown
    then Assessment(true, Hold, UncertainDispatch, None)
    else if exists a | a in e.attempts ::
              a.outcome != TechnicalFailure || !a.terminal || a.delegation != NotDelegated then
      Assessment(true, Hold, NoCompleteProof, None)
    else if !inspect then Assessment(true, EligibleOnly, NotDispatched, None)
    else InspectPolicy(b)
  }

  /** `b` is what the reused policy would decide with whatever advice it is given. */
  function Assess(d: Document, v: Verification, now: int, inspect: bool, b: Decision): Assessment {
    if now < 0 then Failure(InvalidClock)
    else if d.MissingOrOversized? then Failure(MissingEvidence)
    else if d.Unreadable? || !(1 <= |d.evidence.attempts| <= MAX_ATTEMPTS) then Failure(MalformedEvidence)
    else if v.Unavailable? then Failure(VerifierUnavailable)
    else if v.NoFacts? then Failure(NoTrust)
    else if FactError(d.evidence, v.trust, now).Some? then Failure(FactError(d.evidence, v.trust, now).value)
    else if IdentityError(d.evidence, v.trust, now).Some? then Refusal(IdentityError(d.evidence, v.trust, now).value)
    else Judge(d.evidence, v.trust, inspect, b)
  }

  // ---- Eligibility, stops and prefixes ----

  /** Proven never dispatched. */
  predicate NeverDispatched(a: Attempt) {
    a.policy == Permit && a.outcome == TechnicalFailure && a.terminal && a.delegation == NotDelegated
    && a.intent != IntentUnknown
  }

  /** The independent facts are about this very evidence, and the observation is not older than its five minutes. */
  predicate FreshFacts(e: Evidence, t: Trust, now: int) {
    && 1 <= |t.attemptIds| <= 32 && e == t.expected
    && e.producer == t.producer && e.operationId == t.operationId && e.operation == t.operation
    && e.observedAt == t.observedAt && t.observedAt <= now < t.validUntil <= t.observedAt + 300
  }

  /** The caller is who the facts say, came in through the proxy with access to the app, is no service principal, is
      authorised if a machine, has a live unrevoked credential and a fresh session, and brings no binding along. */
  predicate VerifiedCaller(e: Evidence, t: Trust, now: int) {
    && e.identity == t.identity && t.callerAuthenticated && t.trustedProxy && t.appAccess
    && e.identity.caller != e.identity.servicePrincipal && (e.identity.machine ==> t.machineAuthorized)
    && now < e.identity.expiresAt && e.identity.credential !in t.revokedCredentials
    && e.identity.session !in t.usedSessions && e.bindingReference.None?
  }

  predicate Trusted(e: Evidence, t: Trust, now: int) {
    now >= 0 && 1 <= |e.attempts| <= 32 && FreshFacts(e, t, now) && VerifiedCaller(e, t, now)
  }

  lemma TrustedExactly(e: Evidence, t: Trust, now: int)
    ensures FactError(e, t, now).None? <==> FreshFacts(e, t, now)
    ensures IdentityError(e, t, now).None? <==> VerifiedCaller(e, t, now)
  {
  }

  /** Exactly the callers that fail on fresh facts are rejected; whatever else is wrong is held. */
  lemma RejectedMeans(e: Evidence, t: Trust, now: int, inspect: bool, b: Decision)
    ensures Assess(Parsed(e), Facts(t), now, inspect, b).admission == Rejected <==>
      now >= 0 && 1 <= |e.attempts| <= 32 && FreshFacts(e, t, now) && !VerifiedCaller(e, t, now)
  {
    TrustedExactly(e, t, now);
    hide FactError, IdentityError, FreshFacts, VerifiedCaller;
  }

  /** Nothing is verified without a readable document, facts, a trusted caller and an error-free history that agrees
      with them on recovery; and what is not verified neither stops nor is eligible. */
  lemma VerifiedMeans(d: Document, v: Verification, now: int, inspect: bool, b: Decision)
    ensures Assess(d, v, now, inspect, b).verified <==>
      && d.Parsed? && v.Facts? && Trusted(d.evidence, v.trust, now)
      && HistoryVerdict(d.evidence, v.trust).None? && d.evidence.recoveryHold == v.trust.recoveryHold
    ensures !Assess(d, v, now, inspect, b).verified ==> Assess(d, v, now, inspect, b).admission in {Hold, Rejected}
  {
    if d.Parsed? && v.Facts? { TrustedExactly(d.evidence, v.trust, now); }
    hide FactError, IdentityError, FreshFacts, VerifiedCaller, HistoryVerdict;
  }

  /** A caller is refused for a reason that is true of it. */
  lemma IdentityReasonHolds(e: Evidence, t: Trust, now: int)
    ensures match IdentityError(e, t, now)
      case None => true
      case Some(IdentityMismatch) => e.identity != t.identity
      case Some(UnverifiedIngress) => !t.callerAuthenticated || !t.trustedProxy || !t.appAccess
      case Some(PrincipalConfusion) => e.identity.caller == e.identity.servicePrincipal
      case Some(MachineNotAuthorized) => e.identity.machine && !t.machineAuthorized
      case Some(CredentialExpired) => e.identity.expiresAt <= now || e.identity.credential in t.revokedCredentials
      case Some(SessionReplayed) => e.identity.session in t.usedSessions
      case Some(BindingTransferred) => e.bindingReference.Some?
      case Some(_) => false
  {
  }

  /** Which hold or stop a verified history gets: denial before review, review before recovery, recovery before
      uncertainty, and uncertainty before missing proof. */
  lemma VerdictReason(e: Evidence, t: Trust, now: int, inspect: bool, b: Decision)
    requires Assess(Parsed(e), Facts(t), now, inspect, b).verified
    ensures var reason := Assess(Parsed(e), Facts(t), now, inspect, b).reason;
      var denied := exists a :: a in e.attempts && a.policy == Deny;
      var reviewed := exists a :: a in e.attempts && a.policy == ReviewRequired;
      var held := t.recoveryHold || e.operationId in t.heldOperations || e.operationId in t.usedOperations;
      var uncertain := exists a :: a in e.attempts && a.outcome == DispatchUnknown;
      var unproven := exists a :: a in e.attempts && !NeverDispatched(a);
      && (reason == ChannelADeny <==> denied)
      && (reason == ChannelAReview <==> !denied && reviewed)
      && (reason == RecoveryOrReplay <==> !denied && !reviewed && held)
      && (reason == UncertainDispatch <==> !denied && !reviewed && !held && uncertain)
      && (reason == NoCompleteProof <==> !denied && !reviewed && !held && !uncertain && unproven)
  {
    VerifiedMeans(Parsed(e), Facts(t), now, inspect, b);
    TrustedExactly(e, t, now);
    ErrorFreeMeans(e, t);
    hide FactError, IdentityError, FreshFacts, VerifiedCaller, HistoryVerdict;
  }

  /** Exactly the eligible histories. */
  lemma EligibleMeans(e: Evidence, t: Trust, now: int, inspect: bool, b: Decision)
    ensures Assess(Parsed(e), Facts(t), now, inspect, b).admission == EligibleOnly <==>
      && Trusted(e, t, now)
      && Ids(e.attempts) == t.attemptIds
      && (forall i, j | 0 <= i < j < |t.attemptIds| :: t.attemptIds[i] != t.attemptIds[j])
      && (forall a | a in e.attempts ::
            a.operationId == e.operationId && a.recordedAt <= e.observedAt && NeverDispatched(a))
      && (forall i, j | 0 <= i < j < |e.attempts| :: e.attempts[i].recordedAt <= e.attempts[j].recordedAt)
      && !e.recoveryHold && !t.recoveryHold
      && e.operationId !in t.heldOperations && e.operationId !in t.usedOperations
      && (inspect ==> b == Permit)
  {
    TrustedExactly(e, t, now);
    ErrorFreeMeans(e, t);
    hide FactError, IdentityError, FreshFacts, VerifiedCaller;
  }

  /** A denied attempt in an otherwise verified history stops it, whatever the advice or the second policy says; and
      nothing else stops but the second policy's own denial of an otherwise eligible history. */
  lemma StopMeans(e: Evidence, t: Trust, now: int, inspect: bool, b: Decision)
    ensures Assess(Parsed(e), Facts(t), now, inspect, b).admission == Stop <==>
      || (Trusted(e, t, now) && HistoryVerdict(e, t).None? && e.recoveryHold == t.recoveryHold
          && exists a :: a in e.attempts && a.policy == Deny)
      || (inspect && b == Deny && Assess(Parsed(e), Facts(t), now, false, b).admission == EligibleOnly)
  {
    TrustedExactly(e, t, now);
    hide FactError, IdentityError, FreshFacts, VerifiedCaller, HistoryVerdict;
  }

  /** The same evidence and facts, cut to the first n attempts. */
  function CutEvidence(e: Evidence, n: nat): Evidence
    requires n <= |e.attempts|
  {
    e.(attempts := e.attempts[..n])
  }

  function CutTrust(t: Trust, e: Evidence, n: nat): Trust
    requires n <= |e.attempts| && n <= |t.attemptIds|
  {
    t.(expected := CutEvidence(e, n), attemptIds := t.attemptIds[..n])
  }

  /** Eligibility is closed under non-empty prefixes. */
  lemma PrefixClosed(e: Evidence, t: Trust, now: int, inspect: bool, b: Decision, n: nat)
    requires Assess(Parsed(e), Facts(t), now, inspect, b).admission == EligibleOnly
    requires 1 <= n <= |e.attempts|
    ensures n <= |t.attemptIds|
    ensures Assess(Parsed(CutEvidence(e, n)), Facts(CutTrust(t, e, n)), now, inspect, b).admission == EligibleOnly
  {
    EligibleMeans(e, t, now, inspect, b);
    var e', t' := CutEvidence(e, n), CutTrust(t, e, n);
    EligibleMeans(e', t', now, inspect, b);
    assert Ids(e'.attempts) == t'.attemptIds;
    assert forall a | a in e'.attempts :: a in e.attempts;
  }

  function ExtendEvidence(e: Evidence, a: Attempt): Evidence { e.(attempts := e.attempts + [a]) }

  function ExtendTrust(t: Trust, e: Evidence, a: Attempt): Trust {
    t.(expected := ExtendEvidence(e, a), attemptIds := t.attemptIds + [a.id])
  }

  /** One more attempt never makes a history eligible that was not. */
  lemma AppendNeverEnables(e: Evidence, t: Trust, now: int, inspect: bool, b: Decision, a: Attempt)
    requires Trusted(e, t, now) && Ids(e.attempts) == t.attemptIds
    requires
      Assess(Parsed(ExtendEvidence(e, a)), Facts(ExtendTrust(t, e, a)), now, inspect, b).admission == EligibleOnly
    ensures Assess(Parsed(e), Facts(t), now, inspect, b).admission == EligibleOnly && NeverDispatched(a)
  {
    var e', t' := ExtendEvidence(e, a), ExtendTrust(t, e, a);
    assert e'.attempts[..|e.attempts|] == e.attempts && a in e'.attempts;
    EligibleMeans(e', t', now, inspect, b);
    PrefixClosed(e', t', now, inspect, b, |e.attempts|);
    assert CutEvidence(e', |e.attempts|) == e;
    assert t'.attemptIds[..|e.attempts|] == t.attemptIds;
    assert e == t.expected;
    assert CutTrust(t', e', |e.attempts|) == t;
  }

  /** Nor does it ever reject a trusted caller: what it does not leave eligible it holds or stops. A denial, old or new,
      stops whatever stays verified. */
  lemma AppendOnlyHoldsOrStops(e: Evidence, t: Trust, now: int, inspect: bool, b: Decision, a: Attempt)
    requires Trusted(e, t, now)
    ensures var after := Assess(Parsed(ExtendEvidence(e, a)), Facts(ExtendTrust(t, e, a)), now, inspect, b);
      && after.admission != Rejected
      && (after.verified && (a.policy == Deny || exists x :: x in e.attempts && x.policy == Deny) ==>
            after.admission == Stop && after.reason == ChannelADeny)
  {
    var e', t' := ExtendEvidence(e, a), ExtendTrust(t, e, a);
    assert a in e'.attempts && forall x | x in e.attempts :: x in e'.attempts;
    SameFacts(e, t, now, a);
    TrustedExactly(e', t', now);
    hide HistoryVerdict, FactError, IdentityError, ExtendEvidence, ExtendTrust;
  }

  lemma SameFacts(e: Evidence, t: Trust, now: int, a: Attempt)
    requires Trusted(e, t, now)
    ensures IdentityError(ExtendEvidence(e, a), ExtendTrust(t, e, a), now).None?
    ensures FactError(ExtendEvidence(e, a), ExtendTrust(t, e, a), now).None? || |t.attemptIds| >= MAX_ATTEMPTS
  {
  }
}
