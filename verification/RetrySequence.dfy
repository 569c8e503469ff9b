/** Planning a whole retry sequence up front, and the saga that walks it. */
module RetrySequence {
  import opened Declines
  import Saga

  datatype Strategy = Strategy(maxAttempts: nat, delaysMinutes: seq<nat>, rotateAfter: int)

  /** No rotation. */
  const NEVER: int := -1

  function NetworkCeiling(n: Network): nat {
    match n
    case Visa | Mastercard => 4
    case Amex | Discover => 3
    case OtherNetwork => 2
  }

  function BaseDelays(c: Code): (d: seq<nat>)
    ensures |d| > 0 && forall i :: 0 <= i < |d| ==> d[i] > 0
  {
    match c
    case InsufficientFunds => [1440, 4320, 14400, 20160]
    case IssuerUnavailable | ProcessingError | TryAgainLater => [15, 240, 1440, 7200]
    case VelocityLimitExceeded => [1440, 5760, 14400]
    case AuthenticationRequired => [60, 2880]
    case DoNotHonor => [720, 4320, 11520, 21600]
    case _ => [720, 4320, 14400]
  }

  function RotateAfter(c: Code): int { if c == DoNotHonor then 2 else NEVER }

  function StrategyFor(c: Code, n: Network): (s: Strategy)
    ensures s.maxAttempts == |s.delaysMinutes| <= NetworkCeiling(n)
    ensures s.maxAttempts == 0 <==> Classify(c) != RetryIt
    ensures forall i :: 0 <= i < s.maxAttempts ==> s.delaysMinutes[i] > 0
  {
    if Classify(c) != RetryIt then Strategy(0, [], NEVER)
    else
      var delays, cap := BaseDelays(c), NetworkCeiling(n);
      var capped := if cap < |delays| then delays[..cap] else delays;
      Strategy(|capped|, capped, if RotateAfter(c) != NEVER && RotateAfter(c) < |capped| then RotateAfter(c) else NEVER)
  }

  /** A stored payment method; ref is what the step charges. */
  datatype Method = Method(ref: string, isDefault: bool, autoUpdated: bool)
  datatype MethodRef = NoMethod | Ref(ref: string)

  function FirstAutoUpdated(ms: seq<Method>): MethodRef {
    if ms == [] then NoMethod else if ms[0].autoUpdated then Ref(ms[0].ref) else FirstAutoUpdated(ms[1..])
  }

  function FirstDefault(ms: seq<Method>, isDefault: bool): MethodRef {
    if ms == [] then NoMethod
    else if ms[0].isDefault == isDefault then Ref(ms[0].ref)
    else FirstDefault(ms[1..], isDefault)
  }

  function OrElse(m: MethodRef, n: MethodRef): MethodRef { if m.NoMethod? then n else m }

  function PickDefault(ms: seq<Method>): MethodRef {
    if ms == [] then NoMethod else OrElse(FirstAutoUpdated(ms), OrElse(FirstDefault(ms, true), Ref(ms[0].ref)))
  }

  function PickAlternate(ms: seq<Method>): MethodRef {
    OrElse(FirstDefault(ms, false), FirstAutoUpdated(ms))
  }

  datatype Step = Step(attempt: int, at: int, action: Recommended, method': MethodRef, score: real)

  /** attemptNumber and days since the first failure in, predicted recoverability out. */
  type Model = (int, real) -> real

  datatype Context = Context(now: int, methods: seq<Method>, network: Network, floor: real, model: Model)

  const MINUTE: int := 60_000

  /** Minutes from now to the i-th scheduled attempt. */
  function Reach(delays: seq<nat>, k: nat): nat
    requires k <= |delays|
  {
    if k == 0 then 0 else Reach(delays, k - 1) + delays[k - 1]
  }

  function TimeOf(ctx: Context, s: Strategy, i: nat): int
    requires i < |s.delaysMinutes|
  {
    ctx.now + Reach(s.delaysMinutes, i + 1) * MINUTE
  }

  function DaysAfter(days: real, ms: int): real { days + ms as real / 86_400_000.0 }

  function ScoreAt(ctx: Context, base: int, days: real, s: Strategy, i: nat): real
    requires i < |s.delaysMinutes|
  {
    ctx.model(base + i, DaysAfter(days, TimeOf(ctx, s, i) - ctx.now))
  }

  /** The default method, or the alternate once the strategy rotates. */
  function MethodAt(ctx: Context, s: Strategy, i: nat): MethodRef {
    var rotate := s.rotateAfter != NEVER && i >= s.rotateAfter;
    OrElse(if rotate then PickAlternate(ctx.methods) else PickDefault(ctx.methods), PickDefault(ctx.methods))
  }

  function StepAt(ctx: Context, base: int, days: real, s: Strategy, i: nat): Step
    requires i < |s.delaysMinutes|
  {
    Step(base + i, TimeOf(ctx, s, i), RetryIt, MethodAt(ctx, s, i), ScoreAt(ctx, base, days, s, i))
  }

  /** The first attempts of the strategy, all scoring at the floor or above. */
  ghost predicate Planned(steps: seq<Step>, base: int, days: real, ctx: Context, s: Strategy) {
    && |steps| <= |s.delaysMinutes|
    && forall i :: 0 <= i < |steps| ==> steps[i] == StepAt(ctx, base, days, s, i) && steps[i].score >= ctx.floor
  }

  /** The steps are cut just before the first attempt that scores below the floor. */
  ghost predicate IsPlan(steps: seq<Step>, base: int, days: real, ctx: Context, s: Strategy) {
    && Planned(steps, base, days, ctx, s)
    && (|steps| < |s.delaysMinutes| ==> ScoreAt(ctx, base, days, s, |steps|) < ctx.floor)
  }

  method PlanStrategy(s: Strategy, base: int, days: real, ctx: Context) returns (steps: seq<Step>)
    requires s.maxAttempts == |s.delaysMinutes|
    ensures IsPlan(steps, base, days, ctx, s)
  {
    var default', alternate := PickDefault(ctx.methods), PickAlternate(ctx.methods);
    steps := [];
    var cursor := ctx.now;
    for i := 0 to s.maxAttempts
      invariant |steps| == i && cursor == ctx.now + Reach(s.delaysMinutes, i) * MINUTE
      invariant Planned(steps, base, days, ctx, s)
    {
      cursor := cursor + s.delaysMinutes[i] * MINUTE;
      assert cursor == TimeOf(ctx, s, i);
      var scored := ctx.model(base + i, DaysAfter(days, cursor - ctx.now));
      if scored < ctx.floor { return; }
      var rotate := s.rotateAfter != NEVER && i >= s.rotateAfter;
      var chosen := OrElse(if rotate then alternate else default', default');
      var next := Step(base + i, cursor, RetryIt, chosen, scored);
      assert next == StepAt(ctx, base, days, s, i);
      steps := steps + [next];
    }
  }

  method PlanRetrySequence(code: Code, base: int, days: real, ctx: Context) returns (steps: seq<Step>)
    ensures Classify(code) != RetryIt ==>
              steps == [Step(base, ctx.now, Classify(code), NoMethod, ctx.model(base, days))]
    ensures Classify(code) == RetryIt ==> IsPlan(steps, base, days, ctx, StrategyFor(code, ctx.network))
  {
    if Classify(code) != RetryIt {
      return [Step(base, ctx.now, Classify(code), NoMethod, ctx.model(base, days))];
    }
    steps := PlanStrategy(StrategyFor(code, ctx.network), base, days, ctx);
  }

  lemma {:induction false} ReachGrows(delays: seq<nat>, j: nat, k: nat)
    requires j < k <= |delays| && forall i :: 0 <= i < |delays| ==> delays[i] > 0
    ensures Reach(delays, j) < Reach(delays, k)
  {
    if j < k - 1 { ReachGrows(delays, j, k - 1); }
  }

  /** Times strictly increase, starting after now. */
  ghost predicate TimesIncrease(steps: seq<Step>, now: int) {
    && (steps != [] ==> now < steps[0].at)
    && forall i, j :: 0 <= i < j < |steps| ==> steps[i].at < steps[j].at
  }

  lemma TimeGrows(steps: seq<Step>, base: int, days: real, ctx: Context, s: Strategy, i: nat)
    requires Planned(steps, base, days, ctx, s) && i < |steps|
    requires forall k :: 0 <= k < |s.delaysMinutes| ==> s.delaysMinutes[k] > 0
    ensures ctx.now < steps[i].at
  {
    ReachGrows(s.delaysMinutes, 0, i + 1);
  }

  lemma TimesGrow(steps: seq<Step>, base: int, days: real, ctx: Context, s: Strategy, i: nat, j: nat)
    requires Planned(steps, base, days, ctx, s) && i < j < |steps|
    requires forall k :: 0 <= k < |s.delaysMinutes| ==> s.delaysMinutes[k] > 0
    ensures steps[i].at < steps[j].at
  {
    ReachGrows(s.delaysMinutes, i + 1, j + 1);
  }

  /** For every retriable decline: increasing times, consecutive attempts, the network's ceiling, the score floor. */
  lemma PlanIsSound(steps: seq<Step>, code: Code, base: int, days: real, ctx: Context)
    requires Classify(code) == RetryIt && IsPlan(steps, base, days, ctx, StrategyFor(code, ctx.network))
    ensures TimesIncrease(steps, ctx.now) && |steps| <= NetworkCeiling(ctx.network)
    ensures forall i :: 0 <= i < |steps| ==>
              steps[i].attempt == base + i && steps[i].action == RetryIt && steps[i].score >= ctx.floor
  {
    var s := StrategyFor(code, ctx.network);
    forall i | 0 <= i < |steps| ensures ctx.now < steps[i].at { TimeGrows(steps, base, days, ctx, s, i); }
    forall i, j | 0 <= i < j < |steps| ensures steps[i].at < steps[j].at {
      TimesGrow(steps, base, days, ctx, s, i, j);
    }
  }

  // ----- walking the sequence -----

  /** The executions are the plan's first retry steps, none before its time, each but the last a failed charge. */
  ghost predicate WalksPlan(xs: seq<Saga.Execution>, steps: seq<Step>) {
    && |xs| <= |steps|
    && (forall i :: 0 <= i < |xs| ==>
        steps[i].action == RetryIt && xs[i].attempt == steps[i].attempt && xs[i].at >= steps[i].at)
    && (forall i :: 0 <= i < |xs| - 1 ==> xs[i].result == Saga.Charged(Saga.Failed))
    && (forall i, j :: 0 <= i < j < |xs| ==> xs[i].at <= xs[j].at)
  }

  function Later(t: int, u: int): int { if t > u then t else u }

  /** Each execution happens at its step's time, or as soon as the one before it failed when that is later. */
  ghost predicate OnSchedule(xs: seq<Saga.Execution>, steps: seq<Step>, start: int) {
    && |xs| <= |steps|
    && forall i {:trigger Saga.PlannedAt(start, xs, i)} :: 0 <= i < |xs| ==>
         xs[i].at == Later(steps[i].at, Saga.PlannedAt(start, xs, i))
  }

  lemma ScheduleNext(xs: seq<Saga.Execution>, steps: seq<Step>, start: int, x: Saga.Execution)
    requires OnSchedule(xs, steps, start) && |xs| < |steps|
    requires x.at == Later(steps[|xs|].at, Saga.PlannedAt(start, xs, |xs|))
    ensures OnSchedule(xs + [x], steps, start)
  {
    var ys := xs + [x];
    forall i | 0 <= i < |ys| ensures ys[i].at == Later(steps[i].at, Saga.PlannedAt(start, ys, i)) {
      assert Saga.PlannedAt(start, ys, i) == Saga.PlannedAt(start, xs, i);
    }
  }

  /** A saga that starts no later than its plan was made executes every step exactly at its time. */
  lemma {:induction false} ScheduleKept(xs: seq<Saga.Execution>, steps: seq<Step>, start: int, now: int, i: nat)
    requires OnSchedule(xs, steps, start) && TimesIncrease(steps, now) && start <= now && i < |xs|
    ensures xs[i].at == steps[i].at
  {
    assert xs[i].at == Later(steps[i].at, Saga.PlannedAt(start, xs, i));
    if i > 0 {
      ScheduleKept(xs, steps, start, now, i - 1);
      assert steps[i - 1].at < steps[i].at;
    } else {
      assert now < steps[0].at;
    }
  }

  /** The reason a terminal step stops the saga. */
  function ReasonOfAction(action: Recommended): Saga.StopReason {
    if action == CardUpdateIt then Saga.CardUpdate else Saga.EngineStopped
  }

  /** The reason an executed step stops the saga, unless its charge failed. */
  function ReasonOfResult(result: Saga.ExecuteResult): Saga.StopReason
    requires result != Saga.Charged(Saga.Failed)
  {
    if result == Saga.Charged(Saga.Succeeded) then Saga.Recovered
    else if result.Charged? then Saga.PendingHandoff
    else Saga.ReasonOf(result)
  }

  ghost predicate SequenceStatusFits(status: Saga.StopReason, xs: seq<Saga.Execution>, steps: seq<Step>) {
    && (status == Saga.Recovered <==> xs != [] && xs[|xs| - 1].result == Saga.Charged(Saga.Succeeded))
    && (status == Saga.PendingHandoff <==> xs != [] && xs[|xs| - 1].result == Saga.Charged(Saga.Pending))
    && (status == Saga.Exhausted <==> steps != [] && |xs| == |steps| && Saga.AllFailed(xs))
    && (steps == [] ==> status == Saga.EngineStopped)
    && (xs != [] && !xs[|xs| - 1].result.Charged? ==> status == Saga.ReasonOf(xs[|xs| - 1].result))
    && (|xs| < |steps| && Saga.AllFailed(xs) ==>
          steps[|xs|].action != RetryIt && status == ReasonOfAction(steps[|xs|].action))
  }

  /** Which step's attempt number the saga reports: the last one executed, or the one it stopped at. */
  ghost predicate AttemptsFit(attempts: int, xs: seq<Saga.Execution>, steps: seq<Step>) {
    if steps == [] then attempts == 1
    else if |xs| < |steps| && Saga.AllFailed(xs) then attempts == steps[|xs|].attempt
    else xs != [] && attempts == xs[|xs| - 1].attempt
  }

  /** The first i steps are executed, and all their charges failed. */
  ghost predicate StillWalking(xs: seq<Saga.Execution>, i: nat, steps: seq<Step>, start: int, now: int) {
    && |xs| == i && WalksPlan(xs, steps) && Saga.AllFailed(xs)
    && OnSchedule(xs, steps, start) && now == Saga.PlannedAt(start, xs, i)
  }

  /** What a finished sequenced saga executed, and what it reports. */
  ghost predicate SequenceFits(xs: seq<Saga.Execution>, status: Saga.StopReason, attempts: int, steps: seq<Step>,
                               start: int) {
    && WalksPlan(xs, steps) && OnSchedule(xs, steps, start)
    && SequenceStatusFits(status, xs, steps) && AttemptsFit(attempts, xs, steps)
  }

  lemma WalkExtends(xs: seq<Saga.Execution>, steps: seq<Step>, x: Saga.Execution, start: int,
                    now: int)
    requires StillWalking(xs, |xs|, steps, start, now) && |xs| < |steps| && steps[|xs|].action == RetryIt
    requires x.attempt == steps[|xs|].attempt && x.at == Later(steps[|xs|].at, now)
    ensures WalksPlan(xs + [x], steps) && OnSchedule(xs + [x], steps, start)
    ensures x.result == Saga.Charged(Saga.Failed) <==> Saga.AllFailed(xs + [x])
  {
    ScheduleNext(xs, steps, start, x);
    assert (xs + [x])[|xs|] == x;
  }

  /** A failed charge leaves the walk going. */
  lemma WalkGoesOn(xs: seq<Saga.Execution>, steps: seq<Step>, x: Saga.Execution, start: int,
                    now: int)
    requires StillWalking(xs, |xs|, steps, start, now) && |xs| < |steps| && steps[|xs|].action == RetryIt
    requires x.attempt == steps[|xs|].attempt && x.at == Later(steps[|xs|].at, now)
    requires x.result == Saga.Charged(Saga.Failed)
    ensures StillWalking(xs + [x], |xs| + 1, steps, start, x.at)
  {
    WalkExtends(xs, steps, x, start, now);
  }

  /** Any other answer ends it. */
  lemma WalkEnds(xs: seq<Saga.Execution>, steps: seq<Step>, x: Saga.Execution, start: int,
                    now: int)
    requires StillWalking(xs, |xs|, steps, start, now) && |xs| < |steps| && steps[|xs|].action == RetryIt
    requires x.attempt == steps[|xs|].attempt && x.at == Later(steps[|xs|].at, now)
    requires x.result != Saga.Charged(Saga.Failed)
    ensures SequenceFits(xs + [x], ReasonOfResult(x.result), x.attempt, steps, start)
  {
    WalkExtends(xs, steps, x, start, now);
    assert (xs + [x])[|xs|] == x;
    match x.result
    case Charged(Succeeded) =>
    case Charged(Pending) => assert x.result == Saga.Charged(Saga.Pending);
    case _ =>
  }

  /** So does a terminal step. */
  lemma WalkStops(xs: seq<Saga.Execution>, steps: seq<Step>, start: int, now: int)
    requires StillWalking(xs, |xs|, steps, start, now) && |xs| < |steps| && steps[|xs|].action != RetryIt
    ensures SequenceFits(xs, ReasonOfAction(steps[|xs|].action), steps[|xs|].attempt, steps, start)
  {
  }

  lemma WalkedWhole(xs: seq<Saga.Execution>, steps: seq<Step>, start: int, now: int)
    requires steps != [] && StillWalking(xs, |steps|, steps, start, now)
    ensures SequenceFits(xs, Saga.Exhausted, steps[|steps| - 1].attempt, steps, start)
  {
  }

  lemma NothingToWalk(start: int)
    ensures SequenceFits([], Saga.EngineStopped, 1, [], start)
  {
  }

  class SequencedDriver {
    const runtime: Saga.InMemoryRuntime
    /** What executing an attempt at an instant answers. */
    const execute: (int, int) -> Saga.ExecuteResult
    const settlementWindowMinutes: nat
    var timeline: seq<Saga.SagaEvent>

    constructor (runtime: Saga.InMemoryRuntime, execute: (int, int) -> Saga.ExecuteResult, window: nat)
      ensures this.runtime == runtime && this.execute == execute && settlementWindowMinutes == window
      ensures timeline == []
    {
      this.runtime, this.execute, settlementWindowMinutes, timeline := runtime, execute, window, [];
    }

    method Record(attempt: int, kind: Saga.EventKind)
      modifies this
      ensures timeline == old(timeline) + [Saga.SagaEvent(runtime.clock, attempt, kind)]
      ensures Saga.Executions(timeline) == Saga.Executions(old(timeline))
                + if kind.Executed? then [Saga.Execution(runtime.clock, attempt, kind.result)] else []
    {
      Saga.ExecutionsOfNext(timeline, Saga.SagaEvent(runtime.clock, attempt, kind));
      timeline := timeline + [Saga.SagaEvent(runtime.clock, attempt, kind)];
    }

    method Stop(reason: Saga.StopReason, attempt: int) returns (r: Saga.SagaResult)
      modifies this
      ensures timeline == old(timeline) + [Saga.SagaEvent(runtime.clock, attempt, Saga.Stopped(reason))]
      ensures Saga.Executions(timeline) == Saga.Executions(old(timeline))
      ensures r == Saga.SagaResult(reason, attempt, timeline)
    {
      Record(attempt, Saga.Stopped(reason));
      r := Saga.SagaResult(reason, attempt, timeline);
    }

    /** Sleep to a retry step's time and execute it; both are on the timeline. */
    method ExecuteStep(step: Step) returns (result: Saga.ExecuteResult, ghost x: Saga.Execution)
      modifies this, runtime
      ensures timeline == old(timeline) + [Saga.SagaEvent(runtime.clock, step.attempt, Saga.Slept(step.at)),
                                           Saga.SagaEvent(runtime.clock, step.attempt, Saga.Executed(result))]
      ensures Saga.Executions(timeline) == Saga.Executions(old(timeline)) + [x]
      ensures x == Saga.Execution(runtime.clock, step.attempt, result) && result == execute(x.attempt, x.at)
      ensures runtime.clock == if step.at > old(runtime.clock) then step.at else old(runtime.clock)
    {
      runtime.SleepUntil(step.at);
      Record(step.attempt, Saga.Slept(step.at));
      result := execute(step.attempt, runtime.clock);
      x := Saga.Execution(runtime.clock, step.attempt, result);
      Record(step.attempt, Saga.Executed(result));
    }

    /** Stop after this answer, having waited for the settlement window when the charge is in flight. */
    method StopAfter(result: Saga.ExecuteResult, attempt: int) returns (r: Saga.SagaResult)
      requires result != Saga.Charged(Saga.Failed)
      modifies this, runtime
      ensures runtime.clock == old(runtime.clock)
              + if result == Saga.Charged(Saga.Pending) then settlementWindowMinutes * MINUTE else 0
      ensures timeline == old(timeline)
              + (if result == Saga.Charged(Saga.Pending)
                 then [Saga.SagaEvent(runtime.clock, attempt, Saga.AwaitingSettlement(runtime.clock))] else [])
              + [Saga.SagaEvent(runtime.clock, attempt, Saga.Stopped(r.status))]
      ensures Saga.Executions(timeline) == Saga.Executions(old(timeline))
      ensures r == Saga.SagaResult(ReasonOfResult(result), attempt, timeline)
    {
      if result == Saga.Charged(Saga.Pending) {
        var until := runtime.clock + settlementWindowMinutes * MINUTE;
        runtime.SleepUntil(until);
        Record(attempt, Saga.AwaitingSettlement(until));
      }
      r := Stop(ReasonOfResult(result), attempt);
    }

    /** One planned step: stop at a terminal one, and otherwise execute it and see whether to go on. */
    method WalkStep(steps: seq<Step>, i: nat, ghost start: int) returns (done: bool, r: Saga.SagaResult)
      requires i < |steps| && StillWalking(Saga.Executions(timeline), i, steps, start, runtime.clock)
      modifies this, runtime
      ensures old(timeline) < timeline
      ensures !done ==> StillWalking(Saga.Executions(timeline), i + 1, steps, start, runtime.clock)
      ensures done ==> Finished(r, steps, start)
    {
      ghost var xs := Saga.Executions(timeline);
      var step := steps[i];
      if step.action != RetryIt {
        WalkStops(xs, steps, start, runtime.clock);
        r := Stop(ReasonOfAction(step.action), step.attempt);
        return true, r;
      }
      ghost var now := runtime.clock;
      var result, x := ExecuteStep(step);
      done, r := false, Saga.SagaResult(Saga.Exhausted, step.attempt, []);
      if result == Saga.Charged(Saga.Failed) {
        WalkGoesOn(xs, steps, x, start, now);
      } else {
        WalkEnds(xs, steps, x, start, now);
        done := true;
        r := StopAfter(result, step.attempt);
      }
    }

    /** The result reports the timeline, which ends with it. */
    ghost predicate Finished(r: Saga.SagaResult, steps: seq<Step>, start: int)
      reads this, runtime
    {
      && r.timeline == timeline && timeline != []
      && timeline[|timeline| - 1] == Saga.SagaEvent(runtime.clock, r.attempts, Saga.Stopped(r.status))
      && SequenceFits(Saga.Executions(timeline), r.status, r.attempts, steps, start)
    }

    /**
     * The saga executes a prefix of the plan, each step at its time or, when that has passed, as soon as the step
     * before it failed; it is exhausted iff a non-empty plan was executed whole and failed.
     */
    method RunSequencedRecoverySaga(steps: seq<Step>) returns (r: Saga.SagaResult)
      requires timeline == []
      modifies this, runtime
      ensures Finished(r, steps, old(runtime.clock)) && timeline[0].kind == Saga.PlannedSequence(|steps|)
    {
      ghost var start := runtime.clock;
      assert Saga.Executions(timeline) == [];
      Record(1, Saga.PlannedSequence(|steps|));
      if steps == [] {
        NothingToWalk(start);
        r := Stop(Saga.EngineStopped, 1);
        return;
      }
      for i := 0 to |steps|
        invariant StillWalking(Saga.Executions(timeline), i, steps, start, runtime.clock)
        invariant timeline != [] && timeline[0].kind == Saga.PlannedSequence(|steps|)
      {
        var done, result := WalkStep(steps, i, start);
        if done { return result; }
      }
      WalkedWhole(Saga.Executions(timeline), steps, start, runtime.clock);
      r := Stop(Saga.Exhausted, steps[|steps| - 1].attempt);
    }
  }
}
