/** The durable recovery saga: plan, sleep, execute, with activities that may be re-run. */
module Saga {
  import opened Idempotency
  import opened Wrappers

  // ----- vocabulary -----

  datatype DecidedAction = Retry | CardUpdateComms | Suppress

  /** An absent, unparsable or usable instant, in milliseconds. */
  datatype RetryAt = NoTime | Unparsable | At(ms: int)

  datatype Decision = Decision(action: DecidedAction, retryAt: RetryAt)

  datatype Outcome = Succeeded | Failed | Pending

  /** A charge that reports no outcome counts as failed. */
  datatype ExecuteResult = Charged(outcome: Outcome) | Shadowed | GuardrailSuppressed | EngineSuppressed | CommsInstead

  datatype StopReason =
    | Recovered | Exhausted | EngineStopped | GuardrailStopped | CardUpdate | ShadowComplete | PendingHandoff

  datatype Config = Config(maxAttempts: int, settlementWindowMinutes: nat, fallbackBackoffMinutes: nat)

  datatype PlanStep = SleepThenExecute(until: int) | ExecuteNow | StopBefore(reason: StopReason)

  datatype PostStep = RetryNext(attempt: int) | AwaitSettlement | StopAfter(reason: StopReason)

  datatype EventKind =
    | Planned(action: DecidedAction)
    | PlannedSequence(steps: nat)
    | Slept(until: int)
    | Executed(result: ExecuteResult)
    | AwaitingSettlement(until: int)
    | Stopped(reason: StopReason)

  datatype SagaEvent = SagaEvent(at: int, attempt: int, kind: EventKind)

  datatype SagaResult = SagaResult(status: StopReason, attempts: int, timeline: seq<SagaEvent>)

  // ----- the pure decision functions -----

  /** The instant to sleep to; nothing when the planned moment has already come. */
  function FutureTime(retryAt: RetryAt, now: int, fallbackMinutes: nat): RetryAt {
    match retryAt
    case At(t) => if t > now then At(t) else NoTime
    case _ => At(now + fallbackMinutes * 60_000)
  }

  function Plan(d: Decision, now: int, config: Config): PlanStep {
    match d.action
    case CardUpdateComms => StopBefore(CardUpdate)
    case Suppress => StopBefore(EngineStopped)
    case Retry =>
      match FutureTime(d.retryAt, now, config.fallbackBackoffMinutes)
      case At(t) => SleepThenExecute(t)
      case _ => ExecuteNow
  }

  function PostExecute(result: ExecuteResult, attempt: int, config: Config): PostStep {
    match result
    case Shadowed => StopAfter(ShadowComplete)
    case EngineSuppressed => StopAfter(EngineStopped)
    case GuardrailSuppressed => StopAfter(GuardrailStopped)
    case CommsInstead => StopAfter(CardUpdate)
    case Charged(Succeeded) => StopAfter(Recovered)
    case Charged(Pending) => AwaitSettlement
    case Charged(Failed) => if attempt + 1 > config.maxAttempts then StopAfter(Exhausted) else RetryNext(attempt + 1)
  }

  // ----- the runtime and the port -----

  class InMemoryRuntime {
    var clock: int
    var sleeps: seq<(int, int)>

    constructor (start: int)
      ensures clock == start && sleeps == []
    {
      clock, sleeps := start, [];
    }

    /** The clock never goes back. */
    method SleepUntil(target: int)
      modifies this
      ensures clock == if target > old(clock) then target else old(clock)
      ensures sleeps == if target > old(clock) then old(sleeps) + [(old(clock), target)] else old(sleeps)
    {
      if target > clock {
        sleeps := sleeps + [(clock, target)];
        clock := target;
      }
    }
  }

  /** How far one run of an execute activity got: lost before the processor, at the processor, or another answer. */
  datatype ActivityRun = Crashes | Charges(drawn: Outcome) | Answers(result: ExecuteResult)

  /** What a processor that dedupes by key records for a charge. */
  function Deduped(processor: map<string, Outcome>, key: string, drawn: Outcome): map<string, Outcome> {
    if key in processor then processor else processor[key := drawn]
  }

  function RunAnswer(processor: map<string, Outcome>, key: string, run: ActivityRun): ExecuteResult
    requires !run.Crashes?
  {
    match run
    case Answers(result) => result
    case Charges(drawn) => Charged(if key in processor then processor[key] else drawn)
  }

  function AfterRun(processor: map<string, Outcome>, key: string, run: ActivityRun): map<string, Outcome> {
    match run
    case Crashes | Answers(_) => processor
    case Charges(drawn) => Deduped(processor, key, drawn)
  }

  /** The outcomes on record after an activity was run this often. */
  ghost function AllRuns(processor: map<string, Outcome>, key: string, runs: seq<ActivityRun>): map<string, Outcome> {
    if runs == [] then processor
    else AfterRun(AllRuns(processor, key, runs[..|runs| - 1]), key, runs[|runs| - 1])
  }

  /** The last run is the one that did not crash. */
  predicate Completed(runs: seq<ActivityRun>) { runs != [] && !runs[|runs| - 1].Crashes? }

  /** The answer of the last run, the only one the saga sees. */
  ghost function LastAnswer(processor: map<string, Outcome>, key: string, runs: seq<ActivityRun>): ExecuteResult
    requires Completed(runs)
  {
    RunAnswer(AllRuns(processor, key, runs[..|runs| - 1]), key, runs[|runs| - 1])
  }

  /** An answer from outside the processor is no charge. */
  ghost predicate Honest(runs: seq<ActivityRun>) {
    Completed(runs) && forall i :: 0 <= i < |runs| && runs[i].Answers? ==> !runs[i].result.Charged?
  }

  /** What the first run to reach the processor drew. */
  function FirstDrawn(runs: seq<ActivityRun>): Option<Outcome> {
    if runs == [] then None
    else
      match runs[0]
      case Charges(drawn) => Some(drawn)
      case Crashes | Answers(_) => FirstDrawn(runs[1..])
  }

  lemma {:induction false} FirstDrawnNext(runs: seq<ActivityRun>, run: ActivityRun)
    ensures FirstDrawn(runs + [run]) == if FirstDrawn(runs).Some? then FirstDrawn(runs) else FirstDrawn([run])
  {
    if runs == [] {
      assert runs + [run] == [run];
    } else {
      FirstDrawnNext(runs[1..], run);
      assert (runs + [run])[1..] == runs[1..] + [run];
    }
  }

  /** The record after any re-runs: only the first draw counts, and only for a fresh key. */
  lemma {:induction false} RecordAfterRuns(processor: map<string, Outcome>, key: string, runs: seq<ActivityRun>)
    ensures AllRuns(processor, key, runs)
            == if FirstDrawn(runs).None? then processor else Deduped(processor, key, FirstDrawn(runs).value)
  {
    if runs != [] {
      var k := |runs| - 1;
      RecordAfterRuns(processor, key, runs[..k]);
      FirstDrawnNext(runs[..k], runs[k]);
      assert runs == runs[..k] + [runs[k]];
      assert runs[k].Charges? ==> FirstDrawn([runs[k]]) == Some(runs[k].drawn);
      assert !runs[k].Charges? ==> [runs[k]][1..] == [] && FirstDrawn([runs[k]]) == None;
    }
  }

  /** A run that reaches the processor answers what is then on record. */
  lemma LastChargeAnswersRecord(processor: map<string, Outcome>, key: string, runs: seq<ActivityRun>)
    requires Honest(runs)
    ensures var after := AllRuns(processor, key, runs);
            var last := runs[|runs| - 1];
            if last.Charges? then key in after && LastAnswer(processor, key, runs) == Charged(after[key])
            else LastAnswer(processor, key, runs) == last.result && !last.result.Charged?
  {
  }

  lemma {:induction false} SomethingDrawn(runs: seq<ActivityRun>, i: nat)
    requires i < |runs| && runs[i].Charges?
    ensures FirstDrawn(runs).Some?
  {
    if i > 0 && !runs[0].Charges? { SomethingDrawn(runs[1..], i - 1); }
  }

  /** When the last run reaches the processor, it sees what the first to do so got: replays are invisible. */
  lemma ReplaysInvisible(processor: map<string, Outcome>, key: string, runs: seq<ActivityRun>)
    requires runs != [] && runs[|runs| - 1].Charges?
    ensures FirstDrawn(runs).Some?
    ensures var first := Charges(FirstDrawn(runs).value);
            && AllRuns(processor, key, runs) == AfterRun(processor, key, first)
            && LastAnswer(processor, key, runs) == RunAnswer(processor, key, first)
  {
    var k := |runs| - 1;
    var prior := AllRuns(processor, key, runs[..k]);
    SomethingDrawn(runs, k);
    RecordAfterRuns(processor, key, runs);
    RecordAfterRuns(processor, key, runs[..k]);
    FirstDrawnNext(runs[..k], runs[k]);
    assert runs == runs[..k] + [runs[k]];
    assert FirstDrawn([runs[k]]) == Some(runs[k].drawn);
    assert LastAnswer(processor, key, runs) == RunAnswer(prior, key, runs[k]);
  }

  /** The money moved, and the saga is not told so. */
  ghost predicate HidesSuccess(processor: map<string, Outcome>, key: string, runs: seq<ActivityRun>)
    requires Completed(runs)
  {
    var after := AllRuns(processor, key, runs);
    key in after && after[key] == Succeeded && LastAnswer(processor, key, runs) != Charged(Succeeded)
  }

  /** Exactly when: the last run stopped short of the processor, and the record or the first draw says success. */
  lemma SuccessHiddenIff(processor: map<string, Outcome>, key: string, runs: seq<ActivityRun>)
    requires Honest(runs)
    ensures HidesSuccess(processor, key, runs) <==>
            && runs[|runs| - 1].Answers?
            && (if key in processor then processor[key] == Succeeded else FirstDrawn(runs) == Some(Succeeded))
  {
    RecordAfterRuns(processor, key, runs);
    LastChargeAnswersRecord(processor, key, runs);
  }

  /** The port: any plan answers, and for each execute any runs of the activity, all but the last of them crashed. */
  class RecoveryCasePort {
    const planAnswer: (int, int) -> Decision
    const activityRuns: (int, int) -> seq<ActivityRun>
    const charge: KeyInput
    const hash: string -> string
    var processor: map<string, Outcome>

    constructor (planAnswer: (int, int) -> Decision, activityRuns: (int, int) -> seq<ActivityRun>,
                 charge: KeyInput, hash: string -> string, processor: map<string, Outcome>)
      ensures this.planAnswer == planAnswer && this.activityRuns == activityRuns
      ensures this.charge == charge && this.hash == hash && this.processor == processor
    {
      this.planAnswer, this.activityRuns, this.charge, this.hash := planAnswer, activityRuns, charge, hash;
      this.processor := processor;
    }

    /** The idempotency key of an attempt. */
    function KeyOf(attempt: int): string {
      IdempotencyKey(charge.(attempt := attempt), hash)
    }

    ghost predicate Valid() {
      forall n, t :: Honest(activityRuns(n, t))
    }

    /** The record after all runs of the activity, and the answer of the last. */
    method Execute(attempt: int, now: int) returns (result: ExecuteResult)
      requires Valid()
      modifies this
      ensures processor == AllRuns(old(processor), KeyOf(attempt), activityRuns(attempt, now))
      ensures result == LastAnswer(old(processor), KeyOf(attempt), activityRuns(attempt, now))
    {
      var runs := activityRuns(attempt, now);
      var key := KeyOf(attempt);
      assert Honest(runs);
      ghost var before := processor;
      for i := 0 to |runs| - 1
        invariant processor == AllRuns(before, key, runs[..i])
      {
        assert runs[..i + 1][..i] == runs[..i];
        processor := AfterRun(processor, key, runs[i]);
      }
      result := RunAnswer(processor, key, runs[|runs| - 1]);
      processor := AfterRun(processor, key, runs[|runs| - 1]);
    }
  }

  // ----- reading a timeline -----

  datatype Execution = Execution(at: int, attempt: int, result: ExecuteResult)

  function Executions(timeline: seq<SagaEvent>): seq<Execution> {
    if timeline == [] then []
    else
      var e := timeline[|timeline| - 1];
      Executions(timeline[..|timeline| - 1])
      + if e.kind.Executed? then [Execution(e.at, e.attempt, e.kind.result)] else []
  }

  lemma ExecutionsOfNext(timeline: seq<SagaEvent>, e: SagaEvent)
    ensures Executions(timeline + [e])
            == Executions(timeline) + if e.kind.Executed? then [Execution(e.at, e.attempt, e.kind.result)] else []
  {
    assert (timeline + [e])[..|timeline|] == timeline;
  }

  /** Attempts 1, 2, ... in order, each but the last a failed charge. */
  ghost predicate InOrder(xs: seq<Execution>) {
    && (forall i :: 0 <= i < |xs| ==> xs[i].attempt == i + 1)
    && (forall i :: 0 <= i < |xs| - 1 ==> xs[i].result == Charged(Failed))
    && (forall i, j :: 0 <= i < j < |xs| ==> xs[i].at <= xs[j].at)
  }

  function Ceiling(config: Config): int {
    if config.maxAttempts < 1 then 1 else config.maxAttempts
  }

  ghost predicate AllFailed(xs: seq<Execution>) {
    forall i :: 0 <= i < |xs| ==> xs[i].result == Charged(Failed)
  }

  /** The reason an answer without a charge stops the saga. */
  function ReasonOf(result: ExecuteResult): StopReason
    requires !result.Charged?
  {
    match result
    case Shadowed => ShadowComplete
    case GuardrailSuppressed => GuardrailStopped
    case EngineSuppressed => EngineStopped
    case CommsInstead => CardUpdate
  }

  /** How the status follows from the executions. */
  ghost predicate StatusFits(status: StopReason, xs: seq<Execution>, config: Config) {
    && (status == Recovered <==> xs != [] && xs[|xs| - 1].result == Charged(Succeeded))
    && (status == PendingHandoff <==> xs != [] && xs[|xs| - 1].result == Charged(Pending))
    && (status == Exhausted <==> |xs| == Ceiling(config) && AllFailed(xs))
    && (xs != [] && !xs[|xs| - 1].result.Charged? ==> status == ReasonOf(xs[|xs| - 1].result))
  }

  /** What one executed turn may end with. */
  ghost predicate TurnFits(done: bool, reason: StopReason, result: ExecuteResult, attempt: int, config: Config) {
    && (!done ==> result == Charged(Failed) && attempt + 1 <= config.maxAttempts)
    && (done ==>
          && (reason == Recovered <==> result == Charged(Succeeded))
          && (reason == PendingHandoff <==> result == Charged(Pending))
          && (reason == Exhausted <==> result == Charged(Failed))
          && (reason == Exhausted ==> attempt + 1 > config.maxAttempts)
          && (!result.Charged? ==> reason == ReasonOf(result)))
  }

  /** A retry is due at its own time, or at once if that has passed; without one, after the fallback. */
  function DueAt(d: Decision, plannedAt: int, config: Config): int {
    match d.retryAt
    case At(ms) => if ms > plannedAt then ms else plannedAt
    case _ => plannedAt + config.fallbackBackoffMinutes * 60_000
  }

  /** The clock when attempt i + 1 was planned: the start, or the moment the attempt before it failed. */
  function PlannedAt(start: int, xs: seq<Execution>, i: nat): int
    requires i <= |xs|
  {
    if i == 0 then start else xs[i - 1].at
  }

  /** This execution was a planned retry, at exactly the time its plan says. */
  ghost predicate Due(port: RecoveryCasePort, config: Config, plannedAt: int, x: Execution) {
    var d := port.planAnswer(x.attempt, plannedAt);
    d.action == Retry && x.at == DueAt(d, plannedAt, config)
  }

  ghost predicate OnTime(port: RecoveryCasePort, config: Config, start: int, xs: seq<Execution>) {
    forall i {:trigger PlannedAt(start, xs, i)} :: 0 <= i < |xs| ==> Due(port, config, PlannedAt(start, xs, i), xs[i])
  }

  lemma OnTimeNext(port: RecoveryCasePort, config: Config, start: int, xs: seq<Execution>, turn: seq<Execution>)
    requires OnTime(port, config, start, xs) && |turn| <= 1
    requires turn != [] ==> Due(port, config, PlannedAt(start, xs, |xs|), turn[0])
    ensures OnTime(port, config, start, xs + turn)
  {
    var ys := xs + turn;
    forall i | 0 <= i < |ys| ensures Due(port, config, PlannedAt(start, ys, i), ys[i]) {
      assert PlannedAt(start, ys, i) == PlannedAt(start, xs, i);
    }
  }

  lemma NextInOrder(xs: seq<Execution>, x: Execution)
    requires InOrder(xs) && AllFailed(xs) && x.attempt == |xs| + 1 && (xs != [] ==> xs[|xs| - 1].at <= x.at)
    ensures InOrder(xs + [x]) && (AllFailed(xs + [x]) <==> x.result == Charged(Failed))
  {
    assert (xs + [x])[|xs|] == x;
  }

  /** A plan that ends the saga after failures only. */
  lemma PlanStatus(xs: seq<Execution>, reason: StopReason, config: Config)
    requires AllFailed(xs) && (xs != [] ==> |xs| < Ceiling(config)) && (reason == CardUpdate || reason == EngineStopped)
    ensures StatusFits(reason, xs, config) && |xs| <= Ceiling(config)
  {
  }

  /** An execution that ends the saga after failures only. */
  lemma TurnStatus(xs: seq<Execution>, x: Execution, reason: StopReason, config: Config)
    requires AllFailed(xs) && (xs != [] ==> |xs| < Ceiling(config))
    requires TurnFits(true, reason, x.result, |xs| + 1, config)
    ensures StatusFits(reason, xs + [x], config) && |xs + [x]| <= Ceiling(config)
  {
    assert (xs + [x])[|xs|] == x;
  }

  lemma TurnExtends(xs: seq<Execution>, turn: seq<Execution>, reason: StopReason, done: bool, config: Config)
    requires InOrder(xs) && AllFailed(xs) && |turn| <= 1 && (xs != [] ==> |xs| < Ceiling(config))
    requires turn == [] ==> done && (reason == CardUpdate || reason == EngineStopped)
    requires turn != [] ==> turn[0].attempt == |xs| + 1 && TurnFits(done, reason, turn[0].result, |xs| + 1, config)
    requires turn != [] && xs != [] ==> xs[|xs| - 1].at <= turn[0].at
    ensures InOrder(xs + turn) && |xs + turn| <= Ceiling(config)
    ensures done ==> StatusFits(reason, xs + turn, config)
    ensures !done ==> AllFailed(xs + turn)
  {
    if turn == [] {
      assert xs + turn == xs;
      PlanStatus(xs, reason, config);
    } else {
      assert turn == [turn[0]];
      NextInOrder(xs, turn[0]);
      if done { TurnStatus(xs, turn[0], reason, config); }
    }
  }

  // ----- what a saga adds to the record -----

  /** Keys that succeeded and were not known before. */
  ghost function NewSuccesses(before: map<string, Outcome>, after: map<string, Outcome>): set<string> {
    set k | k in after && k !in before && after[k] == Succeeded
  }

  ghost predicate Extends(before: map<string, Outcome>, after: map<string, Outcome>) {
    forall k :: k in before ==> k in after && after[k] == before[k]
  }

  /** The keys of the attempts executed. */
  ghost function KeysUsed(port: RecoveryCasePort, xs: seq<Execution>): set<string> {
    set i | 0 <= i < |xs| :: port.KeyOf(xs[i].attempt)
  }

  /** Nothing but failed charges so far: recorded outcomes stand, and each executed attempt's key is on record. */
  ghost predicate OnlyFailures(port: RecoveryCasePort, before: map<string, Outcome>, now: map<string, Outcome>,
                               xs: seq<Execution>) {
    && Extends(before, now) && NewSuccesses(before, now) == {}
    && now.Keys == before.Keys + KeysUsed(port, xs)
  }

  /** This attempt's key is fresh and the first charge made under it succeeded. */
  ghost predicate MovesMoney(port: RecoveryCasePort, before: map<string, Outcome>, xs: seq<Execution>, x: Execution) {
    && FirstDrawn(port.activityRuns(x.attempt, x.at)) == Some(Succeeded)
    && port.KeyOf(x.attempt) !in before.Keys + KeysUsed(port, xs)
  }

  lemma KeysUsedNext(port: RecoveryCasePort, xs: seq<Execution>, x: Execution)
    ensures KeysUsed(port, xs + [x]) == KeysUsed(port, xs) + {port.KeyOf(x.attempt)}
  {
    var ys := xs + [x];
    forall k | k in KeysUsed(port, xs) + {port.KeyOf(x.attempt)} ensures k in KeysUsed(port, ys) {
      if k in KeysUsed(port, xs) {
        var i :| 0 <= i < |xs| && port.KeyOf(xs[i].attempt) == k;
        assert port.KeyOf(ys[i].attempt) == k;
      } else {
        assert port.KeyOf(ys[|xs|].attempt) == k;
      }
    }
  }

  /** The activity of x ran, took the record from before to after, and answered what x reports. */
  ghost predicate ExecutedBy(port: RecoveryCasePort, before: map<string, Outcome>, after: map<string, Outcome>,
                             x: Execution) {
    var runs, key := port.activityRuns(x.attempt, x.at), port.KeyOf(x.attempt);
    Completed(runs) && after == AllRuns(before, key, runs) && x.result == LastAnswer(before, key, runs)
  }

  /** What a whole saga leaves on record: see RunRecoverySaga. */
  ghost predicate RecordFits(port: RecoveryCasePort, before: map<string, Outcome>, after: map<string, Outcome>,
                             xs: seq<Execution>, status: StopReason) {
    && Extends(before, after)
    && if xs == [] then after == before
       else
         var x, earlier := xs[|xs| - 1], xs[..|xs| - 1];
         var runs, key := port.activityRuns(x.attempt, x.at), port.KeyOf(x.attempt);
         && runs != []
         && NewSuccesses(before, after) == (if MovesMoney(port, before, earlier, x) then {key} else {})
         && (NewSuccesses(before, after) != {} && status != Recovered <==>
             MovesMoney(port, before, earlier, x) && runs[|runs| - 1].Answers?)
         && (status == Recovered ==> key in after && after[key] == Succeeded)
  }

  lemma TurnSuccesses(before: map<string, Outcome>, prior: map<string, Outcome>, key: string, runs: seq<ActivityRun>)
    requires Extends(before, prior) && NewSuccesses(before, prior) == {}
    ensures var after := AllRuns(prior, key, runs);
            && Extends(before, after)
            && NewSuccesses(before, after)
               == if FirstDrawn(runs) == Some(Succeeded) && key !in prior then {key} else {}
  {
    var after := AllRuns(prior, key, runs);
    RecordAfterRuns(prior, key, runs);
    forall k ensures k in NewSuccesses(before, after) <==>
                     k == key && FirstDrawn(runs) == Some(Succeeded) && key !in prior {
      assert k in NewSuccesses(before, prior) <==> k in prior && k !in before && prior[k] == Succeeded;
    }
  }

  lemma RecordedKeys(processor: map<string, Outcome>, key: string, runs: seq<ActivityRun>)
    requires key in AllRuns(processor, key, runs)
    ensures AllRuns(processor, key, runs).Keys == processor.Keys + {key}
  {
    RecordAfterRuns(processor, key, runs);
  }

  /** A failed charge is on record as failed. */
  lemma FailedOnRecord(processor: map<string, Outcome>, key: string, runs: seq<ActivityRun>)
    requires Honest(runs) && LastAnswer(processor, key, runs) == Charged(Failed)
    ensures var after := AllRuns(processor, key, runs);
            && key in after && after[key] == Failed && after.Keys == processor.Keys + {key}
  {
    LastChargeAnswersRecord(processor, key, runs);
    RecordedKeys(processor, key, runs);
  }

  /** It leaves only failures on record. */
  lemma FailedTurnRecord(port: RecoveryCasePort, before: map<string, Outcome>, prior: map<string, Outcome>,
                         after: map<string, Outcome>, xs: seq<Execution>, x: Execution)
    requires OnlyFailures(port, before, prior, xs) && ExecutedBy(port, prior, after, x)
    requires Honest(port.activityRuns(x.attempt, x.at)) && x.result == Charged(Failed)
    ensures OnlyFailures(port, before, after, xs + [x])
    ensures port.KeyOf(x.attempt) !in NewSuccesses(before, after)
  {
    var runs, key := port.activityRuns(x.attempt, x.at), port.KeyOf(x.attempt);
    TurnSuccesses(before, prior, key, runs);
    FailedOnRecord(prior, key, runs);
    assert key !in NewSuccesses(before, after);
    KeysUsedNext(port, xs, x);
  }

  /** What the execution of x adds to the record after only failures. */
  lemma TurnRecord(port: RecoveryCasePort, before: map<string, Outcome>, prior: map<string, Outcome>,
                   after: map<string, Outcome>, xs: seq<Execution>, x: Execution)
    requires port.Valid() && OnlyFailures(port, before, prior, xs)
    requires ExecutedBy(port, prior, after, x)
    ensures Extends(before, after)
    ensures NewSuccesses(before, after) == if MovesMoney(port, before, xs, x) then {port.KeyOf(x.attempt)} else {}
    ensures x.result == Charged(Failed) ==>
              OnlyFailures(port, before, after, xs + [x]) && !MovesMoney(port, before, xs, x)
  {
    var runs, key := port.activityRuns(x.attempt, x.at), port.KeyOf(x.attempt);
    assert Honest(runs);
    TurnSuccesses(before, prior, key, runs);
    assert key in prior <==> key in before.Keys + KeysUsed(port, xs);
    if x.result == Charged(Failed) { FailedTurnRecord(port, before, prior, after, xs, x); }
  }

  /** A saga that ends with this execution, after failures only, leaves what RecordFits says. */
  lemma LastTurnFits(port: RecoveryCasePort, before: map<string, Outcome>, prior: map<string, Outcome>,
                     after: map<string, Outcome>, xs: seq<Execution>, x: Execution, status: StopReason)
    requires port.Valid() && OnlyFailures(port, before, prior, xs)
    requires ExecutedBy(port, prior, after, x)
    requires status == Recovered <==> x.result == Charged(Succeeded)
    ensures RecordFits(port, before, after, xs + [x], status)
  {
    var runs, key := port.activityRuns(x.attempt, x.at), port.KeyOf(x.attempt);
    assert Honest(runs);
    TurnRecord(port, before, prior, after, xs, x);
    LastChargeAnswersRecord(prior, key, runs);
    var ys := xs + [x];
    assert ys[..|ys| - 1] == xs && ys[|ys| - 1] == x;
    if MovesMoney(port, before, xs, x) {
      assert key in NewSuccesses(before, after);
    }
  }

  /** The state of a saga that goes on: attempts in order, all failed, and no money moved. */
  ghost predicate StillFailing(port: RecoveryCasePort, before: map<string, Outcome>, now: map<string, Outcome>,
                               xs: seq<Execution>) {
    && InOrder(xs) && AllFailed(xs) && OnlyFailures(port, before, now, xs)
    && (xs == [] ==> now == before)
    && (xs != [] ==> !MovesMoney(port, before, xs[..|xs| - 1], xs[|xs| - 1]))
  }

  /** A saga that ends in a plan, after failures only, has moved no money. */
  lemma FailuresFit(port: RecoveryCasePort, before: map<string, Outcome>, now: map<string, Outcome>,
                    xs: seq<Execution>, status: StopReason)
    requires port.Valid() && StillFailing(port, before, now, xs) && status != Recovered
    ensures RecordFits(port, before, now, xs, status)
  {
    if xs != [] { assert Honest(port.activityRuns(xs[|xs| - 1].attempt, xs[|xs| - 1].at)); }
  }

  /** What one turn reports: at most one execution, of the next attempt, that explains the record and the end. */
  ghost predicate IsTurn(port: RecoveryCasePort, prior: map<string, Outcome>, after: map<string, Outcome>, attempt: int,
                         turn: seq<Execution>, done: bool, reason: StopReason, config: Config) {
    && |turn| <= 1
    && (turn == [] ==> done && (reason == CardUpdate || reason == EngineStopped) && after == prior)
    && (turn != [] ==> turn[0].attempt == attempt && TurnFits(done, reason, turn[0].result, attempt, config)
                       && ExecutedBy(port, prior, after, turn[0]))
  }

  lemma TurnContinues(port: RecoveryCasePort, before: map<string, Outcome>, prior: map<string, Outcome>,
                      after: map<string, Outcome>, xs: seq<Execution>, turn: seq<Execution>, reason: StopReason,
                      config: Config)
    requires port.Valid() && StillFailing(port, before, prior, xs)
    requires IsTurn(port, prior, after, |xs| + 1, turn, false, reason, config)
    requires xs != [] ==> |xs| < Ceiling(config) && xs[|xs| - 1].at <= turn[0].at
    ensures |turn| == 1 && StillFailing(port, before, after, xs + turn)
  {
    TurnExtends(xs, turn, reason, false, config);
    TurnRecord(port, before, prior, after, xs, turn[0]);
    assert turn == [turn[0]] && (xs + turn)[..|xs|] == xs;
  }

  /** What a finished saga executed, how its status follows, and what it left on record. */
  ghost predicate SagaFits(port: RecoveryCasePort, before: map<string, Outcome>, after: map<string, Outcome>,
                           xs: seq<Execution>, status: StopReason, config: Config) {
    && InOrder(xs) && |xs| <= Ceiling(config) && StatusFits(status, xs, config)
    && RecordFits(port, before, after, xs, status)
  }

  /** The attempt a finished saga reports: the last one executed, or the next one when its plan ended the saga. */
  ghost function AttemptsOf(xs: seq<Execution>, status: StopReason): int {
    if AllFailed(xs) && status != Exhausted then |xs| + 1 else |xs|
  }

  lemma AttemptsAtEnd(xs: seq<Execution>, turn: seq<Execution>, reason: StopReason, config: Config)
    requires AllFailed(xs) && |turn| <= 1
    requires turn == [] ==> reason == CardUpdate || reason == EngineStopped
    requires turn != [] ==> TurnFits(true, reason, turn[0].result, |xs| + 1, config)
    ensures AttemptsOf(xs + turn, reason) == |xs| + 1
  {
    if turn == [] {
      assert xs + turn == xs;
    } else {
      assert (xs + turn)[|xs|] == turn[0];
    }
  }

  lemma TurnEnds(port: RecoveryCasePort, before: map<string, Outcome>, prior: map<string, Outcome>,
                 after: map<string, Outcome>, xs: seq<Execution>, turn: seq<Execution>, reason: StopReason,
                 config: Config)
    requires port.Valid() && StillFailing(port, before, prior, xs)
    requires IsTurn(port, prior, after, |xs| + 1, turn, true, reason, config)
    requires xs != [] ==> |xs| < Ceiling(config)
    requires xs != [] && turn != [] ==> xs[|xs| - 1].at <= turn[0].at
    ensures SagaFits(port, before, after, xs + turn, reason, config)
  {
    TurnExtends(xs, turn, reason, true, config);
    if turn == [] {
      assert xs + turn == xs;
      FailuresFit(port, before, after, xs, reason);
    } else {
      assert turn == [turn[0]];
      LastTurnFits(port, before, prior, after, xs, turn[0], reason);
    }
  }

  /** An attempt finds its key used by an earlier attempt only when the digests of two texts start alike. */
  lemma KeyReusedByCollision(port: RecoveryCasePort, xs: seq<Execution>, attempt: int)
    requires forall i :: 0 <= i < |xs| ==> xs[i].attempt < attempt
    ensures port.KeyOf(attempt) in KeysUsed(port, xs) <==>
            exists i :: 0 <= i < |xs| && Collides(port.hash, Canonical(port.charge.(attempt := xs[i].attempt)),
                                                  Canonical(port.charge.(attempt := attempt)))
  {
    forall i | 0 <= i < |xs|
      ensures port.KeyOf(xs[i].attempt) == port.KeyOf(attempt) <==>
              Collides(port.hash, Canonical(port.charge.(attempt := xs[i].attempt)),
                       Canonical(port.charge.(attempt := attempt))) {
      SameKeySameAttempt(port.charge, xs[i].attempt, attempt, port.hash);
    }
  }

  // ----- the driver -----

  class SagaDriver {
    const port: RecoveryCasePort
    const runtime: InMemoryRuntime
    const config: Config
    var timeline: seq<SagaEvent>

    constructor (port: RecoveryCasePort, runtime: InMemoryRuntime, config: Config)
      ensures this.port == port && this.runtime == runtime && this.config == config && timeline == []
    {
      this.port, this.runtime, this.config, timeline := port, runtime, config, [];
    }

    method Record(attempt: int, kind: EventKind)
      modifies this
      ensures timeline == old(timeline) + [SagaEvent(runtime.clock, attempt, kind)]
      ensures Executions(timeline) == Executions(old(timeline))
                + if kind.Executed? then [Execution(runtime.clock, attempt, kind.result)] else []
    {
      ExecutionsOfNext(timeline, SagaEvent(runtime.clock, attempt, kind));
      timeline := timeline + [SagaEvent(runtime.clock, attempt, kind)];
    }

    method Stop(reason: StopReason, attempt: int) returns (r: SagaResult)
      modifies this
      ensures r == SagaResult(reason, attempt, timeline) && Executions(timeline) == Executions(old(timeline))
    {
      Record(attempt, Stopped(reason));
      r := SagaResult(reason, attempt, timeline);
    }

    /** Plan one attempt and sleep to its time; stop when the plan ends the saga. */
    method PlanAndSleep(attempt: int) returns (stop: bool, reason: StopReason)
      modifies this, runtime
      ensures Executions(timeline) == Executions(old(timeline)) && runtime.clock >= old(runtime.clock)
      ensures stop ==> reason == CardUpdate || reason == EngineStopped
      ensures stop ==> runtime.clock == old(runtime.clock)
      ensures !stop ==>
        var d := port.planAnswer(attempt, old(runtime.clock));
        d.action == Retry && runtime.clock == DueAt(d, old(runtime.clock), config)
    {
      var decision := port.planAnswer(attempt, runtime.clock);
      Record(attempt, Planned(decision.action));
      var step := Plan(decision, runtime.clock, config);
      match step
      case StopBefore(why) => return true, why;
      case ExecuteNow => return false, Recovered;
      case SleepThenExecute(until) =>
        runtime.SleepUntil(until);
        Record(attempt, Slept(until));
        return false, Recovered;
    }

    /** After an execution: retry, stop, or wait for the settlement window and hand off. */
    method Conclude(result: ExecuteResult, attempt: int) returns (done: bool, reason: StopReason)
      modifies this, runtime
      ensures Executions(timeline) == Executions(old(timeline))
      ensures TurnFits(done, reason, result, attempt, config)
      ensures runtime.clock == old(runtime.clock)
              + if result == Charged(Pending) then config.settlementWindowMinutes * 60_000 else 0
      ensures timeline == old(timeline)
              + if result == Charged(Pending)
                then [SagaEvent(runtime.clock, attempt, AwaitingSettlement(runtime.clock))] else []
    {
      match PostExecute(result, attempt, config)
      case StopAfter(why) =>
        done, reason := true, why;
      case AwaitSettlement =>
        var until := runtime.clock + config.settlementWindowMinutes * 60_000;
        runtime.SleepUntil(until);
        Record(attempt, AwaitingSettlement(until));
        done, reason := true, PendingHandoff;
      case RetryNext(_) =>
        done, reason := false, Exhausted;
    }

    /** One turn of the loop: plan, sleep, execute, decide. done means the saga ends with this reason. */
    method RunAttempt(attempt: int) returns (done: bool, reason: StopReason, ghost xs: seq<Execution>)
      requires port.Valid()
      modifies this, runtime, port
      ensures Executions(timeline) == Executions(old(timeline)) + xs
      ensures IsTurn(port, old(port.processor), port.processor, attempt, xs, done, reason, config)
      ensures runtime.clock >= old(runtime.clock)
      ensures xs != [] ==> old(runtime.clock) <= xs[0].at && Due(port, config, old(runtime.clock), xs[0])
      ensures !done ==> xs != [] && runtime.clock == xs[0].at
    {
      xs := [];
      done, reason := PlanAndSleep(attempt);
      if done { return; }
      var result := port.Execute(attempt, runtime.clock);
      xs := [Execution(runtime.clock, attempt, result)];
      Record(attempt, Executed(result));
      done, reason := Conclude(result, attempt);
    }

    /** The saga goes on: every execution so far was on time and failed, and the clock stands at the last one. */
    ghost predicate Going(before: map<string, Outcome>, start: int)
      reads this, port, runtime
    {
      var xs := Executions(timeline);
      && runtime.clock == PlannedAt(start, xs, |xs|) && OnTime(port, config, start, xs)
      && StillFailing(port, before, port.processor, xs)
    }

    /** What a finished saga executed, and when, how its status and attempt follow, and what it left on record. */
    ghost predicate Ended(before: map<string, Outcome>, start: int, reason: StopReason, attempt: int)
      reads this, port
    {
      var xs := Executions(timeline);
      && OnTime(port, config, start, xs) && SagaFits(port, before, port.processor, xs, reason, config)
      && attempt == AttemptsOf(xs, reason)
    }

    /** One turn of a saga that goes on. */
    method TakeTurn(attempt: nat, ghost before: map<string, Outcome>, ghost start: int)
      returns (done: bool, reason: StopReason)
      requires port.Valid() && Going(before, start) && |Executions(timeline)| + 1 == attempt
      requires config.maxAttempts >= -1 && (attempt > 1 ==> attempt <= config.maxAttempts)
      modifies this, runtime, port
      ensures done ==> Ended(before, start, reason, attempt)
      ensures !done ==> Going(before, start) && |Executions(timeline)| == attempt && attempt + 1 <= config.maxAttempts
    {
      ghost var xs, prior := Executions(timeline), port.processor;
      ghost var turn;
      done, reason, turn := RunAttempt(attempt);
      OnTimeNext(port, config, start, xs, turn);
      if done {
        TurnEnds(port, before, prior, port.processor, xs, turn, reason, config);
        AttemptsAtEnd(xs, turn, reason, config);
      } else {
        TurnContinues(port, before, prior, port.processor, xs, turn, reason, config);
      }
    }

    /**
     * Attempts 1 .. k are executed, k at most the ceiling, each but the last a failed charge and each exactly when the
     * plan made at the failure before it says; the status follows from the last answer, and the loop only falls
     * through when it could not start. However often activities re-run, recorded outcomes stand, and the only key
     * that can newly succeed is the last attempt's: it does exactly when it was fresh and its first charge succeeded.
     * That success is hidden, with a status other than recovered, exactly when in addition the last run of that
     * activity did not reach the processor.
     */
    method RunRecoverySaga() returns (r: SagaResult)
      requires port.Valid() && timeline == []
      modifies this, runtime, port
      ensures r.timeline == timeline
      ensures if config.maxAttempts >= -1
              then Ended(old(port.processor), old(runtime.clock), r.status, r.attempts)
              else && r.status == Exhausted && r.attempts == 1 && Executions(timeline) == []
                   && port.processor == old(port.processor)
    {
      ghost var before, start := port.processor, runtime.clock;
      var attempt := 1;
      var guard := 0;
      while guard <= config.maxAttempts + 1
        invariant 0 <= guard && attempt == guard + 1 && |Executions(timeline)| == guard
        invariant guard > 0 ==> attempt <= config.maxAttempts
        invariant Going(before, start)
      {
        var done, why := TakeTurn(attempt, before, start);
        if done {
          r := Stop(why, attempt);
          return;
        }
        attempt := attempt + 1;
        guard := guard + 1;
      }
      r := Stop(Exhausted, attempt);
    }
  }
}
