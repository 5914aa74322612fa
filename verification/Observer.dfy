/** The governance profiler as a machine over a trace of call and return events of the observed functions. */
module Observer {
  import opened Options

  const MAX_EVENTS := 4096

  /** Identity of a live frame. */
  type Key(==, !new)

  datatype Phase = Preflight | Issuance | BindingIssue | BindingConsume | PostResult | Other

  const ALLOWED := {Preflight, Issuance, BindingIssue, BindingConsume, PostResult}

  /** A callback may fault after it has counted its event; `known` says that the returned value was recognised. */
  datatype Event =
    | Call(key: Key, phase: Phase, fault: bool)
    | Return(key: Key, known: bool, fault: bool)
    | Unrelated

  datatype Start = Start(phase: Phase, index: nat)

  datatype Logged = Logged(phase: Phase, index: nat, known: bool)

  datatype Failure =
    | ReturnWithoutCall | BufferLimit | CallbackError
    | ProfilerChanged | ActiveFrames | CountMismatch | InstallationFailed

  datatype Seen = Seen(starts: map<Key, Start>, calls: nat, matched: nat, coverage: map<Phase, nat>, unknown: nat,
                       events: seq<Logged>, failures: seq<Failure>)

  const NOTHING := Seen(map[], 0, 0, map[], 0, [], [])

  function Once(failures: seq<Failure>, f: Failure): seq<Failure> { if f in failures then failures else failures + [f] }

  function Covered(coverage: map<Phase, nat>, p: Phase): nat { if p in coverage then coverage[p] else 0 }

  /** One callback. A second call on a key forgets the first. */
  function Step(s: Seen, e: Event): Seen {
    match e
    case Unrelated => s
    case Call(k, p, fault) =>
      if fault then s.(calls := s.calls + 1, failures := Once(s.failures, CallbackError))
      else s.(calls := s.calls + 1, starts := s.starts[k := Start(p, s.calls + 1)])
    case Return(k, known, fault) =>
      if k !in s.starts then s.(failures := s.failures + [ReturnWithoutCall])
      else
        var start := s.starts[k];
        var counted := s.(starts := s.starts - {k}, matched := s.matched + 1,
                          coverage := s.coverage[start.phase := Covered(s.coverage, start.phase) + 1]);
        if fault then counted.(failures := Once(s.failures, CallbackError))
        else
          var judged := counted.(unknown := s.unknown + if known then 0 else 1);
          if |s.events| >= MAX_EVENTS then judged.(failures := Once(s.failures, BufferLimit))
          else judged.(events := s.events + [Logged(start.phase, start.index, known)])
  }

  function Run(trace: seq<Event>): Seen {
    if trace == [] then NOTHING else Step(Run(trace[..|trace| - 1]), trace[|trace| - 1])
  }

  lemma RunStep(trace: seq<Event>, e: Event)
    ensures Run(trace + [e]) == Step(Run(trace), e)
  {
    assert (trace + [e])[..|trace + [e]| - 1] == trace;
  }

  lemma StepUnrelated(s: Seen)
    ensures Step(s, Unrelated) == s
  {
  }

  datatype Seal = SealRecord(pass: bool, intact: bool, calls: nat, matched: nat, active: nat, coverage: map<Phase, nat>,
                       unknown: nat, failures: seq<Failure>)

  function SealOf(s: Seen, intact: bool): Seal {
    var changed := if intact then s.failures else s.failures + [ProfilerChanged];
    var active := if s.starts == map[] then changed else changed + [ActiveFrames];
    var failures := if s.calls == s.matched then active else active + [CountMismatch];
    SealRecord(failures == [], intact, s.calls, s.matched, |s.starts|, s.coverage, s.unknown, failures)
  }

  // ---- The profiler object ----

  class ReadOnlyGovernanceObserver {
    var starts: map<Key, Start>
    var calls: nat
    var matched: nat
    var coverage: map<Phase, nat>
    var unknown: nat
    var events: seq<Logged>
    var failures: seq<Failure>
    var entered: bool
    var closed: bool
    var written: Option<(seq<Logged>, Seal)>      // the evidence stream
    ghost var trace: seq<Event>

    ghost predicate Valid()
      reads this
    {
      && (!closed ==> State() == Run(trace))
      && (!entered ==> trace == [])
    }

    constructor ()
      ensures Valid() && !entered && !closed && written.None? && trace == []
    {
      starts, calls, matched, coverage, unknown, events, failures := map[], 0, 0, map[], 0, [], [];
      entered, closed, written, trace := false, false, None, [];
    }

    /** Never replaces an existing profiler and is never reused. An installation that fails (`hook` says what the
        profiler is then) still seals its evidence, with the failure in it. */
    method Enter(profiling: bool, installs: bool, hook: bool) returns (ok: bool)
      requires Valid()
      modifies this
      ensures Valid() && trace == old(trace)
      ensures ok <==> !old(entered) && !old(closed) && !profiling && installs
      ensures old(entered) || old(closed) || profiling ==>
        entered == old(entered) && closed == old(closed) && written == old(written)
      ensures ok ==> entered && !closed && written == old(written)
      ensures !old(entered) && !old(closed) && !profiling && !installs ==>
        && entered && closed && written.Some? && written.value.0 == []
        && !written.value.1.pass && InstallationFailed in written.value.1.failures
    {
      ok := false;
      if entered || closed || profiling { return; }
      entered := true;
      ok := installs;
      if !ok {
        failures := failures + [InstallationFailed];
        assert failures[|failures| - 1] == InstallationFailed;
        Seal(hook);
      }
    }

    function State(): Seen
      reads this
    {
      Seen(starts, calls, matched, coverage, unknown, events, failures)
    }

    method Profile(e: Event)
      requires Valid() && entered && !closed
      modifies this`starts, this`calls, this`matched, this`coverage, this`unknown, this`events, this`failures
      modifies this`trace
      ensures Valid() && trace == old(trace) + [e]
    {
      hide Run, Step;
      RunStep(trace, e);
      match e {
        case Unrelated => StepUnrelated(State());
        case Call(k, p, fault) => Called(k, p, fault);
        case Return(k, known, fault) => Returned(k, known, fault);
      }
      trace := trace + [e];
    }

    method Called(k: Key, p: Phase, fault: bool)
      modifies this`starts, this`calls, this`failures
      ensures State() == Step(old(State()), Call(k, p, fault))
    {
      calls := calls + 1;
      if fault {
        Note(CallbackError);
      } else {
        starts := starts[k := Start(p, calls)];
      }
    }

    method Returned(k: Key, known: bool, fault: bool)
      modifies this`starts, this`matched, this`coverage, this`unknown, this`events, this`failures
      ensures State() == Step(old(State()), Return(k, known, fault))
    {
      if k !in starts {
        failures := failures + [ReturnWithoutCall];
        return;
      }
      var start := starts[k];
      starts := starts - {k};
      matched := matched + 1;
      coverage := coverage[start.phase := Covered(coverage, start.phase) + 1];
      if fault {
        Note(CallbackError);
        return;
      }
      if !known { unknown := unknown + 1; }
      if |events| >= MAX_EVENTS {
        Note(BufferLimit);
      } else {
        events := events + [Logged(start.phase, start.index, known)];
      }
    }

    method Note(f: Failure)
      modifies this`failures
      ensures failures == Once(old(failures), f)
    {
      if f !in failures { failures := failures + [f]; }
    }

    /** Writes the log and the seal over it. */
    method Seal(intact: bool)
      requires !closed
      modifies this`closed, this`failures, this`written, this`events, this`starts
      ensures closed && written == Some((old(events), SealOf(old(State()), intact)))
      ensures events == [] && starts == map[]
    {
      closed := true;
      if !intact { failures := failures + [ProfilerChanged]; }
      if starts != map[] { failures := failures + [ActiveFrames]; }
      if calls != matched { failures := failures + [CountMismatch]; }
      written := Some((events,
        SealRecord(failures == [], intact, calls, matched, |starts|, coverage, unknown, failures)));
      events, starts := [], map[];
    }

    /** Seals what was observed; a second close does nothing, and an observer never entered seals nothing. */
    method Close(intact: bool)
      requires Valid()
      modifies this
      ensures Valid() && closed && entered == old(entered) && trace == old(trace)
      ensures written == if !old(closed) && entered then Some((Run(trace).events, SealOf(Run(trace), intact)))
                         else old(written)
    {
      hide Run, SealOf;
      if closed { return; }
      if entered { Seal(intact); } else { closed := true; }
    }
  }

  // ---- Balance, said of the trace alone ----

  /** The calls (true) and returns (false) of one frame key. */
  function Of(trace: seq<Event>, k: Key): seq<bool> {
    if trace == [] then [] else
      var e := trace[|trace| - 1];
      Of(trace[..|trace| - 1], k) + if !e.Unrelated? && e.key == k then [e.Call?] else []
  }

  /** Call, return, call, return, ... */
  predicate Alternates(s: seq<bool>) { forall i | 0 <= i < |s| :: s[i] == (i % 2 == 0) }

  predicate Faultless(trace: seq<Event>) { forall e | e in trace :: e.Unrelated? || !e.fault }

  function Returns(trace: seq<Event>): nat {
    if trace == [] then 0 else Returns(trace[..|trace| - 1]) + if trace[|trace| - 1].Return? then 1 else 0
  }

  /** Nothing lost so far. */
  ghost predicate Sound(trace: seq<Event>) {
    Faultless(trace) && Returns(trace) <= 4096 && forall k :: Alternates(Of(trace, k))
  }

  ghost predicate Balanced(trace: seq<Event>) {
    Sound(trace) && forall k :: |Of(trace, k)| % 2 == 0
  }

  /** Open frames and matched returns never exceed matched calls. */
  lemma {:induction false} OpenBound(trace: seq<Event>)
    ensures Run(trace).matched + |Run(trace).starts| <= Run(trace).calls
    ensures |Run(trace).events| <= MAX_EVENTS && |Run(trace).events| <= Run(trace).matched
  {
    if trace != [] {
      OpenBound(trace[..|trace| - 1]);
      var s, e := Run(trace[..|trace| - 1]), trace[|trace| - 1];
      if e.Call? && !e.fault { MapGrows(s.starts, e.key, Start(e.phase, s.calls + 1)); }
      if e.Return? && e.key in s.starts { MapShrinks(s.starts, e.key); }
    }
  }

  lemma MapGrows<K, V>(m: map<K, V>, k: K, v: V)
    ensures |m[k := v]| == |m| + if k in m then 0 else 1
  {
    assert m[k := v].Keys == m.Keys + {k};
    assert |m[k := v].Keys| == |m[k := v]| && |m.Keys| == |m|;
  }

  lemma MapShrinks<K, V>(m: map<K, V>, k: K)
    requires k in m
    ensures |m - {k}| == |m| - 1
  {
    assert (m - {k}).Keys == m.Keys - {k};
    assert |(m - {k}).Keys| == |m - {k}| && |m.Keys| == |m|;
  }

  /** No failure and no forgotten frame so far. */
  predicate Intact(s: Seen) { s.failures == [] && s.matched + |s.starts| == s.calls }

  ghost predicate OpenKeys(s: Seen, trace: seq<Event>) {
    forall k :: k in s.starts <==> |Of(trace, k)| % 2 == 1
  }

  ghost predicate Tracks(s: Seen, trace: seq<Event>) {
    && (Intact(s) <==> Sound(trace))
    && (Sound(trace) ==> s.matched == Returns(trace) == |s.events| && OpenKeys(s, trace))
  }

  /** The machine has lost nothing exactly when the trace is sound, and then the open frames are the keys whose last
      event was a call. */
  lemma {:induction false} IntactIffSound(trace: seq<Event>)
    ensures Tracks(Run(trace), trace)
  {
    if trace != [] {
      hide Tracks;
      var t, e := trace[..|trace| - 1], trace[|trace| - 1];
      assert trace == t + [e];
      IntactIffSound(t);
      OpenBound(t);
      StepTracks(Run(t), t, e);
    }
  }

  lemma StepTracks(s: Seen, t: seq<Event>, e: Event)
    requires Tracks(s, t) && s.matched + |s.starts| <= s.calls && |s.events| <= MAX_EVENTS
    ensures Tracks(Step(s, e), t + [e])
  {
    hide Sound, Intact, Of, Returns, OpenKeys;
    SoundStep(t, e);
    StepIntact(s, e);
    if Sound(t) {
      assert !e.Unrelated? ==> (e.key in s.starts <==> |Of(t, e.key)| % 2 == 1) by { KeyParity(s, t, e); }
      if Sound(t + [e]) { StepOpenKeys(s, t, e); }
    }
  }

  lemma KeyParity(s: Seen, t: seq<Event>, e: Event)
    requires OpenKeys(s, t)
    ensures !e.Unrelated? ==> (e.key in s.starts <==> |Of(t, e.key)| % 2 == 1)
  {
  }

  lemma StepOpenKeys(s: Seen, t: seq<Event>, e: Event)
    requires OpenKeys(s, t) && (e.Unrelated? || !e.fault)
    requires (e.Call? ==> e.key !in s.starts) && (e.Return? ==> e.key in s.starts)
    ensures OpenKeys(Step(s, e), t + [e])
  {
    forall k ensures |Of(t + [e], k)| == |Of(t, k)| + if !e.Unrelated? && e.key == k then 1 else 0 { OfStep(t, e, k); }
  }

  lemma AlternatesAppends(s: seq<bool>, b: bool)
    ensures Alternates(s + [b]) <==> Alternates(s) && b == (|s| % 2 == 0)
  {
    var longer := s + [b];
    assert longer[|s|] == b;
    assert forall i | 0 <= i < |s| :: longer[i] == s[i];
  }

  lemma StepIntact(s: Seen, e: Event)
    requires s.matched + |s.starts| <= s.calls
    ensures Intact(Step(s, e)) <==>
      && Intact(s) && (e.Unrelated? || !e.fault) && (e.Call? ==> e.key !in s.starts)
      && (e.Return? ==> e.key in s.starts && |s.events| < MAX_EVENTS)
  {
    if e.Call? && !e.fault { MapGrows(s.starts, e.key, Start(e.phase, s.calls + 1)); }
    if e.Return? && e.key in s.starts { MapShrinks(s.starts, e.key); }
  }

  lemma OfStep(t: seq<Event>, e: Event, k: Key)
    ensures Of(t + [e], k) == Of(t, k) + if !e.Unrelated? && e.key == k then [e.Call?] else []
    ensures Alternates(Of(t + [e], k)) <==>
      Alternates(Of(t, k)) && (!e.Unrelated? && e.key == k ==> e.Call? == (|Of(t, k)| % 2 == 0))
  {
    assert (t + [e])[..|t + [e]| - 1] == t;
    if !e.Unrelated? && e.key == k {
      AlternatesAppends(Of(t, k), e.Call?);
    } else {
      assert Of(t + [e], k) == Of(t, k);
    }
  }

  lemma SoundStep(t: seq<Event>, e: Event)
    ensures Returns(t + [e]) == Returns(t) + if e.Return? then 1 else 0
    ensures Sound(t + [e]) <==>
      && Sound(t) && (e.Unrelated? || !e.fault) && Returns(t + [e]) <= MAX_EVENTS
      && (!e.Unrelated? ==> e.Call? == (|Of(t, e.key)| % 2 == 0))
  {
    hide Of, Alternates;
    var trace := t + [e];
    assert trace[..|trace| - 1] == t;
    assert Faultless(trace) <==> Faultless(t) && (e.Unrelated? || !e.fault);
    forall k
      ensures Alternates(Of(trace, k)) <==>
        Alternates(Of(t, k)) && (!e.Unrelated? && e.key == k ==> e.Call? == (|Of(t, k)| % 2 == 0))
    {
      OfStep(t, e, k);
    }
    if Sound(trace) && !e.Unrelated? { assert Alternates(Of(trace, e.key)); }
  }

  /** A PASS seal, in terms of the trace alone: every call matched by exactly one later return on its own key before
      the next call there, no faults, no overflow, and the profiler left in place. */
  lemma PassIffBalanced(trace: seq<Event>, intact: bool)
    ensures SealOf(Run(trace), intact).pass <==> intact && Balanced(trace)
  {
    IntactIffSound(trace);
    OpenBound(trace);
    var s := Run(trace);
    if intact && Balanced(trace) {
      assert forall k :: k !in s.starts;
      assert s.starts == map[];
    }
  }

  // ---- Which events of the trace a logged event stands for ----

  function Calls(trace: seq<Event>): nat {
    if trace == [] then 0 else Calls(trace[..|trace| - 1]) + if trace[|trace| - 1].Call? then 1 else 0
  }

  /** Every call is counted, whatever was lost. */
  lemma {:induction false} CallsAreCounted(trace: seq<Event>)
    ensures Run(trace).calls == Calls(trace)
  {
    if trace != [] { CallsAreCounted(trace[..|trace| - 1]); }
  }

  predicate On(e: Event, k: Key) { !e.Unrelated? && e.key == k }

  /** The frame k was opened by the call at c, and nothing happened on k since. */
  ghost predicate OpenedAt(trace: seq<Event>, k: Key, start: Start, c: nat) {
    && c < |trace| && trace[c].Call? && trace[c].key == k
    && start == Start(trace[c].phase, Calls(trace[..c]) + 1)
    && forall m | c < m < |trace| :: !On(trace[m], k)
  }

  /** The logged event stands for the return at j, the i-th of the trace, and for its own call at c: it has the phase
      and the number of that call and the recognition of that return. */
  ghost predicate LoggedAt(trace: seq<Event>, i: nat, l: Logged, c: nat, j: nat) {
    && c < j < |trace| && trace[c].Call? && trace[j].Return? && trace[c].key == trace[j].key
    && (forall m | c < m < j :: !On(trace[m], trace[c].key))
    && Returns(trace[..j]) == i
    && l == Logged(trace[c].phase, Calls(trace[..c]) + 1, trace[j].known)
  }

  ghost predicate Opened(trace: seq<Event>, k: Key, start: Start) { exists c: nat :: OpenedAt(trace, k, start, c) }

  ghost predicate StandsFor(trace: seq<Event>, i: nat, l: Logged) {
    exists c: nat, j: nat :: LoggedAt(trace, i, l, c, j)
  }

  ghost predicate Faithful(s: Seen, trace: seq<Event>) {
    && s.calls == Calls(trace) && |s.events| == Returns(trace)
    && (forall k | k in s.starts :: Opened(trace, k, s.starts[k]))
    && (forall i | 0 <= i < |s.events| :: StandsFor(trace, i, s.events[i]))
  }

  lemma LogKeeps(t: seq<Event>, e: Event)
    ensures forall k, start, c: nat | OpenedAt(t, k, start, c) && !On(e, k) :: OpenedAt(t + [e], k, start, c)
    ensures forall i, l, c: nat, j: nat | LoggedAt(t, i, l, c, j) :: LoggedAt(t + [e], i, l, c, j)
  {
    forall k, start, c: nat | OpenedAt(t, k, start, c) && !On(e, k) ensures OpenedAt(t + [e], k, start, c) {
      assert (t + [e])[..c] == t[..c];
    }
    forall i, l, c: nat, j: nat | LoggedAt(t, i, l, c, j) ensures LoggedAt(t + [e], i, l, c, j) {
      assert (t + [e])[..c] == t[..c] && (t + [e])[..j] == t[..j];
    }
  }

  lemma StepOpened(s: Seen, t: seq<Event>, e: Event, k: Key)
    requires Faithful(s, t) && (e.Unrelated? || !e.fault) && (e.Return? ==> e.key in s.starts)
    requires k in Step(s, e).starts
    ensures Opened(t + [e], k, Step(s, e).starts[k])
  {
    hide LoggedAt, Covered, Once;
    LogKeeps(t, e);
    if e.Call? && e.key == k {
      assert (t + [e])[..|t|] == t && OpenedAt(t + [e], k, Step(s, e).starts[k], |t|);
    } else {
      var c: nat :| OpenedAt(t, k, s.starts[k], c);
      assert OpenedAt(t + [e], k, Step(s, e).starts[k], c);
    }
  }

  /** The logged event of a return: its frame's call, and the return itself. */
  lemma ReturnLogged(s: Seen, t: seq<Event>, e: Event)
    requires Faithful(s, t) && e.Return? && !e.fault && e.key in s.starts
    ensures StandsFor(t + [e], |s.events|, Logged(s.starts[e.key].phase, s.starts[e.key].index, e.known))
  {
    var c: nat :| OpenedAt(t, e.key, s.starts[e.key], c);
    assert (t + [e])[..c] == t[..c] && (t + [e])[..|t|] == t;
    assert LoggedAt(t + [e], |s.events|, Logged(s.starts[e.key].phase, s.starts[e.key].index, e.known), c, |t|);
  }

  lemma OldLogged(s: Seen, t: seq<Event>, e: Event, i: nat)
    requires Faithful(s, t) && i < |s.events|
    ensures StandsFor(t + [e], i, s.events[i])
  {
    LogKeeps(t, e);
    hide LoggedAt;
    var c: nat, j: nat :| LoggedAt(t, i, s.events[i], c, j);
    assert LoggedAt(t + [e], i, s.events[i], c, j);
  }

  lemma StepFaithful(s: Seen, t: seq<Event>, e: Event)
    requires Faithful(s, t) && (e.Unrelated? || !e.fault)
    requires e.Return? ==> e.key in s.starts && |s.events| < MAX_EVENTS
    ensures Faithful(Step(s, e), t + [e])
  {
    hide StandsFor, Opened, Covered, Once;
    var trace, s' := t + [e], Step(s, e);
    assert trace[..|trace| - 1] == t;
    forall k | k in s'.starts ensures Opened(trace, k, s'.starts[k]) { StepOpened(s, t, e, k); }
    forall i | 0 <= i < |s'.events| ensures StandsFor(trace, i, s'.events[i]) {
      if i < |s.events| { OldLogged(s, t, e, i); } else { ReturnLogged(s, t, e); }
    }
  }

  /** As long as nothing is lost, the i-th logged event is the i-th return together with its own call. */
  lemma {:induction false} LogIsFaithful(trace: seq<Event>)
    requires Sound(trace)
    ensures Faithful(Run(trace), trace)
  {
    if trace != [] {
      var t, e := trace[..|trace| - 1], trace[|trace| - 1];
      assert trace == t + [e];
      SoundStep(t, e);
      LogIsFaithful(t);
      IntactIffSound(t);
      hide Faithful, Sound;
      LogHasRoom(t, e);
      StepFaithful(Run(t), t, e);
    }
  }

  lemma LogHasRoom(t: seq<Event>, e: Event)
    requires Tracks(Run(t), t) && Sound(t) && Sound(t + [e])
    ensures (e.Unrelated? || !e.fault) && (e.Return? ==> e.key in Run(t).starts && |Run(t).events| < MAX_EVENTS)
  {
    SoundStep(t, e);
    KeyParity(Run(t), t, e);
    hide Sound, Run;
  }

  // ---- What a sealed capture satisfies downstream ----

  function CountPhase(events: seq<Logged>, p: Phase): nat {
    if events == [] then 0 else CountPhase(events[..|events| - 1], p) + if events[|events| - 1].phase == p then 1 else 0
  }

  function CountUnknown(events: seq<Logged>): nat {
    if events == [] then 0 else CountUnknown(events[..|events| - 1]) + if events[|events| - 1].known then 0 else 1
  }

  /** Without failures the counters are the counts of the logged events, phase by phase. */
  lemma {:induction false} CoverageIsLog(trace: seq<Event>)
    ensures Run(trace).failures == [] ==>
      && (forall p :: Covered(Run(trace).coverage, p) == CountPhase(Run(trace).events, p))
      && Run(trace).unknown == CountUnknown(Run(trace).events)
  {
    if trace != [] {
      var t, e := trace[..|trace| - 1], trace[|trace| - 1];
      CoverageIsLog(t);
      var s := Run(t);
      if e.Return? && e.key in s.starts && !e.fault && |s.events| < MAX_EVENTS {
        var logged := Logged(s.starts[e.key].phase, s.starts[e.key].index, e.known);
        assert (s.events + [logged])[..|s.events|] == s.events;
      }
    }
  }

  /** Call numbers of logged events and of open frames: distinct, and together all numbers so far. */
  ghost predicate Numbered(s: Seen) {
    && (forall i | 0 <= i < |s.events| :: 1 <= s.events[i].index <= s.calls)
    && (forall k | k in s.starts :: 1 <= s.starts[k].index <= s.calls)
    && (forall i, j | 0 <= i < j < |s.events| :: s.events[i].index != s.events[j].index)
    && (forall k, l | k in s.starts && l in s.starts && k != l :: s.starts[k].index != s.starts[l].index)
    && (forall i, k | 0 <= i < |s.events| && k in s.starts :: s.events[i].index != s.starts[k].index)
  }

  lemma StepNumbered(s: Seen, e: Event)
    requires Numbered(s)
    ensures Numbered(Step(s, e))
  {
    hide Covered, Once;
    if e.Return? && e.key in s.starts && !e.fault && |s.events| < MAX_EVENTS {
      var s' := Step(s, e);
      LogNumbered(s, e.key, e.known);
      assert s'.calls == s.calls && s'.starts == s.starts - {e.key};
      assert s'.events == s.events + [Logged(s.starts[e.key].phase, s.starts[e.key].index, e.known)];
    }
  }

  lemma LogNumbered(s: Seen, k: Key, known: bool)
    requires Numbered(s) && k in s.starts
    ensures Numbered(s.(starts := s.starts - {k},
                        events := s.events + [Logged(s.starts[k].phase, s.starts[k].index, known)]))
  {
  }

  lemma {:induction false} RunNumbered(trace: seq<Event>)
    ensures Numbered(Run(trace))
  {
    if trace != [] {
      RunNumbered(trace[..|trace| - 1]);
      hide Numbered;
      StepNumbered(Run(trace[..|trace| - 1]), trace[|trace| - 1]);
    }
  }

  function Indices(events: seq<Logged>): set<nat> {
    if events == [] then {} else Indices(events[..|events| - 1]) + {events[|events| - 1].index}
  }

  function Range(n: nat): (r: set<nat>)
    ensures |r| == n && forall k :: k in r <==> 1 <= k <= n
  {
    if n == 0 then {} else Range(n - 1) + {n}
  }

  /** Distinct call numbers between 1 and their count are all of 1..n. */
  lemma Pigeonhole(events: seq<Logged>)
    requires forall i | 0 <= i < |events| :: 1 <= events[i].index <= |events|
    requires forall i, j | 0 <= i < j < |events| :: events[i].index != events[j].index
    ensures Indices(events) == Range(|events|)
  {
    IndexCount(events);
    IndexMembers(events);
    var seen, all := Indices(events), Range(|events|);
    assert seen <= all;
    assert |all - seen| == |all| - |seen|;
  }

  lemma {:induction false} IndexMembers(events: seq<Logged>)
    ensures forall x :: x in Indices(events) <==> exists i :: 0 <= i < |events| && events[i].index == x
  {
    if events != [] {
      var init := events[..|events| - 1];
      IndexMembers(init);
      forall x ensures x in Indices(events) <==> exists i :: 0 <= i < |events| && events[i].index == x {
        if x in Indices(init) {
          var i :| 0 <= i < |init| && init[i].index == x;
          assert events[i].index == x;
        }
        if i :| 0 <= i < |events| && events[i].index == x {
          assert i < |init| ==> init[i].index == x;
        }
      }
    }
  }

  lemma {:induction false} IndexCount(events: seq<Logged>)
    requires forall i, j | 0 <= i < j < |events| :: events[i].index != events[j].index
    ensures |Indices(events)| == |events|
  {
    if events != [] {
      var init := events[..|events| - 1];
      IndexCount(init);
      IndexMembers(init);
      assert forall i | 0 <= i < |init| :: events[i] == init[i];
    }
  }

  /** The integrity the capture reader demands: one seal, counts equal to the rows, call numbers exactly 1..n. */
  predicate CaptureIntegrity(events: seq<Logged>, seal: Seal) {
    && seal.pass && seal.intact && seal.active == 0 && seal.failures == []
    && seal.calls == |events| && seal.matched == |events|
    && Indices(events) == Range(|events|)
  }

  /** The phase check of backend admission: only known phases, each counted as often as it was logged. */
  predicate CoverageAdmitted(events: seq<Logged>, seal: Seal) {
    && (forall e | e in events :: e.phase in ALLOWED)
    && (forall p | p in ALLOWED :: Covered(seal.coverage, p) == CountPhase(events, p))
  }

  /** A PASS seal satisfies the reader's integrity check, and the coverage check too unless an evaluation fell outside
      the known phases. */
  lemma PassIsAdmitted(trace: seq<Event>, intact: bool)
    requires SealOf(Run(trace), intact).pass
    ensures CaptureIntegrity(Run(trace).events, SealOf(Run(trace), intact))
    ensures CoverageAdmitted(Run(trace).events, SealOf(Run(trace), intact)) <==>
      forall e | e in Run(trace).events :: e.phase in ALLOWED
  {
    hide Run, Balanced, Range, Indices, CountPhase, Sound;
    PassIffBalanced(trace, intact);
    IntactIffSound(trace);
    CoverageIsLog(trace);
    RunNumbered(trace);
    Pigeonhole(Run(trace).events);
  }
}
