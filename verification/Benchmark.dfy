/** The live judge benchmark loop: one row per scheduled entry, early stops, terminal counts. */
module Benchmark {
  import opened Options

  datatype Outcome = Valid | ProviderFailure | SchemaFailure | TransportFailure | OtherFailure | NotAttempted

  datatype Entry = Entry(id: string, phase: string, observation: nat)

  datatype Row = Row(entry: Entry, outcome: Outcome)

  /** One assessment as the outside decides it. An assessment that raises leaves no row; a checkpoint that raises
      leaves one. */
  datatype Assessment =
    | Raises(reason: string)
    | Completes(outcome: Outcome, abortReason: Option<string>, checkpointFails: Option<string>)
  {
    predicate Proper() { Completes? ==> outcome != NotAttempted }
  }

  // ---- Where the loop stops, without its counter ----

  predicate ThreeInvalid(run: seq<Assessment>, n: nat) {
    3 <= n <= |run| && forall i | n - 3 <= i < n :: run[i].Completes? && run[i].outcome != Valid
  }

  /** The failures that the declared rule names. */
  predicate ThreeNamed(run: seq<Assessment>, n: nat) {
    && 3 <= n <= |run|
    && forall i | n - 3 <= i < n ::
         run[i].Completes? && run[i].outcome in {ProviderFailure, SchemaFailure, TransportFailure}
  }

  const CONSECUTIVE := "CONSECUTIVE_INTEGRATION_FAILURES"

  /** After n rows the loop goes no further; `three` says whether they end in three failures. */
  function ReasonAfter(run: seq<Assessment>, n: nat, three: bool): Option<string>
    requires n <= |run|
  {
    if n > 0 && run[n - 1].Completes? && run[n - 1].checkpointFails.Some? then run[n - 1].checkpointFails
    else if n > 0 && run[n - 1].Completes? && run[n - 1].abortReason.Some? then run[n - 1].abortReason
    else if three && n < |run| then Some(CONSECUTIVE)
    else if n < |run| && run[n].Raises? then Some(run[n].reason)
    else None
  }

  function StopReason(run: seq<Assessment>, n: nat): Option<string>
    requires n <= |run|
  {
    ReasonAfter(run, n, ThreeInvalid(run, n))
  }

  function DeclaredReason(run: seq<Assessment>, n: nat): Option<string>
    requires n <= |run|
  {
    ReasonAfter(run, n, ThreeNamed(run, n))
  }

  /** One of the last three rows is a failure the declared rule does not name. */
  predicate OtherAmongThree(run: seq<Assessment>, n: nat) {
    3 <= n <= |run| && exists i | n - 3 <= i < n :: run[i].Completes? && run[i].outcome == OtherFailure
  }

  /** The loop and the declared rule differ exactly where it stops at three invalid rows of which one is an unnamed
      failure: nothing else had ended the run there, and the next assessment does not raise that very reason. */
  lemma DeclaredRuleExactly(run: seq<Assessment>, n: nat)
    requires n <= |run| && forall a | a in run :: a.Proper()
    ensures (ThreeInvalid(run, n) <==> ThreeNamed(run, n)) <==> !(ThreeInvalid(run, n) && OtherAmongThree(run, n))
    ensures StopReason(run, n) != DeclaredReason(run, n) <==>
      && ThreeInvalid(run, n) && OtherAmongThree(run, n) && n < |run|
      && run[n - 1].checkpointFails.None? && run[n - 1].abortReason.None?
      && run[n] != Raises(CONSECUTIVE)
    ensures DeclaredReason(run, n).Some? ==> StopReason(run, n).Some?
  {
    forall i | 0 <= i < |run| ensures run[i].Proper() { assert run[i] in run; }
  }

  /** Three unnamed failures stop the loop where the declared rule lets it go on. */
  lemma UnnamedFailuresStop()
    ensures var run := seq(4, _ => Completes(OtherFailure, None, None));
      StopReason(run, 3) == Some(CONSECUTIVE) && !ThreeNamed(run, 3) && DeclaredReason(run, 3) == None
  {
    var run := seq(4, _ => Completes(OtherFailure, None, None));
    assert run[2].outcome == OtherFailure;
  }

  /** The rows of a run that stopped after n of them. */
  function RowsAfter(schedule: seq<Entry>, run: seq<Assessment>, n: nat): (rows: seq<Row>)
    requires n <= |schedule| == |run| && forall i | 0 <= i < n :: run[i].Completes?
    ensures |rows| == |schedule|
  {
    seq(|schedule|, i requires 0 <= i < |schedule| =>
      Row(schedule[i], if i < n then run[i].outcome else NotAttempted))
  }

  /** The trailing rows that are not valid. */
  predicate Trailing(run: seq<Assessment>, n: nat, consecutive: nat) {
    && consecutive <= n <= |run|
    && (forall i | 0 <= i < n :: run[i].Completes?)
    && (forall i | n - consecutive <= i < n :: run[i].outcome != Valid)
    && (consecutive < n ==> run[n - consecutive - 1].outcome == Valid)
  }

  /** Exactly one row per scheduled entry in order; the attempted rows are the prefix up to the first reason to
      stop, and with no such reason they are all of them. */
  method Run(schedule: seq<Entry>, preflight: Option<string>, run: seq<Assessment>)
    returns (rows: seq<Row>, aborted: Option<string>, n: nat)
    requires |run| == |schedule| && forall a | a in run :: a.Proper()
    ensures n <= |schedule| && (forall i | 0 <= i < n :: run[i].Completes?) && rows == RowsAfter(schedule, run, n)
    ensures preflight.Some? ==> n == 0 && aborted == preflight
    ensures preflight.None? ==>
      && aborted == StopReason(run, n)
      && (forall k | 0 <= k < n :: StopReason(run, k).None?)
      && (aborted.None? <==> n == |schedule| && StopReason(run, n).None?)
  {
    rows, aborted, n := [], preflight, 0;
    var consecutive := 0;
    if preflight.None? {
      while n < |schedule| && aborted.None?
        invariant n <= |schedule| && |rows| == n
        invariant Trailing(run, n, consecutive)
        invariant forall i | 0 <= i < n :: rows[i] == Row(schedule[i], run[i].outcome)
        invariant forall k | 0 <= k < n :: StopReason(run, k).None?
        invariant aborted.Some? ==> aborted == StopReason(run, n)
        invariant aborted.None? && n < |run| && run[n].Raises? ==> StopReason(run, n) == Some(run[n].reason)
        invariant aborted.None? && (n == |run| || run[n].Completes?) ==> StopReason(run, n).None?
        decreases |schedule| - n, aborted.None?
      {
        match run[n]
        case Raises(reason) => aborted := Some(reason);
        case Completes(outcome, abortReason, checkpointFails) =>
          rows := rows + [Row(schedule[n], outcome)];
          consecutive := if outcome == Valid then 0 else consecutive + 1;
          n := n + 1;
          if checkpointFails.Some? {
            aborted := checkpointFails;
          } else if abortReason.Some? {
            aborted := abortReason;
          } else if consecutive >= 3 && n < |schedule| {
            aborted := Some(CONSECUTIVE);
          }
      }
    }
    rows := rows + seq(|schedule| - n, i requires 0 <= i < |schedule| - n => Row(schedule[n + i], NotAttempted));
  }

  /** Three rows in a row that are not valid can only be the last attempted ones. */
  lemma ThreeInvalidOnlyAtEnd(schedule: seq<Entry>, run: seq<Assessment>, n: nat, i: nat)
    requires n <= |run| == |schedule| && forall k | 0 <= k < n :: StopReason(run, k).None?
    requires forall k | 0 <= k < n :: run[k].Completes?
    requires i + 3 <= n
    requires forall j | i <= j < i + 3 :: RowsAfter(schedule, run, n)[j].outcome != Valid
    ensures i + 3 == n
  {
    if i + 3 < n {
      assert forall j | i <= j < i + 3 :: run[j].outcome == RowsAfter(schedule, run, n)[j].outcome;
      assert StopReason(run, i + 3).None?;
      assert forall j | i + 3 - 3 <= j < i + 3 :: run[j].Completes? && run[j].outcome != Valid;
    }
  }

  // ---- Terminal counts and status ----

  function Count(rows: seq<Row>, o: Outcome): nat {
    if rows == [] then 0 else Count(rows[..|rows| - 1], o) + if rows[|rows| - 1].outcome == o then 1 else 0
  }

  lemma {:induction false} CountsPartition(rows: seq<Row>)
    ensures Count(rows, Valid) + Count(rows, ProviderFailure) + Count(rows, SchemaFailure)
          + Count(rows, TransportFailure) + Count(rows, OtherFailure) + Count(rows, NotAttempted) == |rows|
  {
    if rows != [] { CountsPartition(rows[..|rows| - 1]); }
  }

  lemma {:induction false} CountZero(rows: seq<Row>, o: Outcome)
    ensures Count(rows, o) == 0 <==> forall i | 0 <= i < |rows| :: rows[i].outcome != o
    ensures Count(rows, o) == |rows| <==> forall i | 0 <= i < |rows| :: rows[i].outcome == o
    ensures Count(rows, o) <= |rows|
  {
    if rows != [] {
      var init := rows[..|rows| - 1];
      CountZero(init, o);
      assert forall i | 0 <= i < |init| :: rows[i] == init[i];
    }
  }

  datatype Status = BenchmarkAborted | AllAssessmentsValid | PartialProviderFailure | NoValidAssessments

  function Summarize(rows: seq<Row>, aborted: Option<string>): Status {
    if aborted.Some? || Count(rows, NotAttempted) > 0 then BenchmarkAborted
    else if Count(rows, Valid) == |rows| && rows != [] then AllAssessmentsValid
    else if Count(rows, Valid) > 0 then PartialProviderFailure
    else NoValidAssessments
  }

  /** "All valid" says that nothing aborted the run and every row is valid, and nothing less. */
  lemma StatusMeaning(rows: seq<Row>, aborted: Option<string>)
    ensures Summarize(rows, aborted) == AllAssessmentsValid <==>
      aborted.None? && rows != [] && forall r | r in rows :: r.outcome == Valid
    ensures Summarize(rows, aborted) == BenchmarkAborted <==>
      aborted.Some? || exists r :: r in rows && r.outcome == NotAttempted
    ensures Summarize(rows, aborted) == PartialProviderFailure <==>
      && aborted.None? && (forall r | r in rows :: r.outcome != NotAttempted)
      && (exists r :: r in rows && r.outcome == Valid) && (exists r :: r in rows && r.outcome != Valid)
  {
    CountZero(rows, NotAttempted);
    CountZero(rows, Valid);
    forall i | 0 <= i < |rows| ensures rows[i] in rows {}
  }

  /** The report says "all valid" exactly when the run reached its end unaborted with every assessment valid; a run
      cut short always reports an abort. */
  lemma AllValidRuns(schedule: seq<Entry>, run: seq<Assessment>, n: nat, aborted: Option<string>)
    requires n <= |run| == |schedule| && forall k | 0 <= k < n :: run[k].Completes?
    requires forall a | a in run :: a.Proper()
    requires aborted.None? ==> n == |schedule|
    ensures Summarize(RowsAfter(schedule, run, n), aborted) == AllAssessmentsValid <==>
      aborted.None? && n == |schedule| > 0 && forall i | 0 <= i < n :: run[i].outcome == Valid
    ensures n < |schedule| ==> Summarize(RowsAfter(schedule, run, n), aborted) == BenchmarkAborted
  {
    var rows := RowsAfter(schedule, run, n);
    StatusMeaning(rows, aborted);
    forall i | 0 <= i < n ensures rows[i] in rows && rows[i].outcome == run[i].outcome {}
  }

  // ---- Repeated observations ----

  datatype Semantics = Semantics(classification: string, confidence: string)

  datatype Repeat = Repeat(outcome: Outcome, signal: Semantics)

  datatype RepeatStatus = IncompleteRun | SchemaInvalid | ProviderInvalid | SemanticStable | SemanticVariable

  function RepeatStatusOf(rows: seq<Repeat>): RepeatStatus {
    var outcomes := set r | r in rows :: r.outcome;
    if |rows| != 3 || NotAttempted in outcomes || OtherFailure in outcomes then IncompleteRun
    else if SchemaFailure in outcomes then SchemaInvalid
    else if ProviderFailure in outcomes || TransportFailure in outcomes then ProviderInvalid
    else if |set r | r in rows :: r.signal| == 1 then SemanticStable
    else SemanticVariable
  }

  /** Stability is claimed only of three valid observations that say the same. */
  lemma StableMeaning(rows: seq<Repeat>)
    ensures RepeatStatusOf(rows) == SemanticStable <==>
      |rows| == 3 && (forall r | r in rows :: r.outcome == Valid) && rows[0].signal == rows[1].signal == rows[2].signal
  {
    if |rows| == 3 {
      var signals := set r | r in rows :: r.signal;
      var outcomes := set r | r in rows :: r.outcome;
      assert rows == [rows[0], rows[1], rows[2]];
      assert outcomes == {rows[0].outcome, rows[1].outcome, rows[2].outcome};
      assert signals == {rows[0].signal, rows[1].signal, rows[2].signal};
      OneMember(signals, rows[0].signal);
    }
  }

  /** The other statuses: incomplete before schema before provider, and variable only of three valid observations. */
  lemma RepeatStatusMeaning(rows: seq<Repeat>)
    ensures RepeatStatusOf(rows) == IncompleteRun <==>
      |rows| != 3 || exists r :: r in rows && r.outcome in {NotAttempted, OtherFailure}
    ensures RepeatStatusOf(rows) == SchemaInvalid <==>
      && |rows| == 3 && (forall r | r in rows :: r.outcome !in {NotAttempted, OtherFailure})
      && exists r :: r in rows && r.outcome == SchemaFailure
    ensures RepeatStatusOf(rows) == ProviderInvalid <==>
      && |rows| == 3 && (forall r | r in rows :: r.outcome in {Valid, ProviderFailure, TransportFailure})
      && exists r :: r in rows && r.outcome != Valid
    ensures RepeatStatusOf(rows) == SemanticVariable <==>
      && |rows| == 3 && (forall r | r in rows :: r.outcome == Valid)
      && !(rows[0].signal == rows[1].signal == rows[2].signal)
  {
    StableMeaning(rows);
    var outcomes := set r | r in rows :: r.outcome;
    assert forall r | r in rows :: r.outcome in outcomes;
    assert forall o | o in outcomes :: exists r :: r in rows && r.outcome == o;
  }

  lemma OneMember<T>(s: set<T>, x: T)
    requires x in s
    ensures |s| == 1 <==> s == {x}
  {
    if |s| == 1 { assert |s - {x}| == 0; }
  }
}
