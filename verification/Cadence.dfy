/** Every planned retry cadence against the guardrail: a plan walked on time is never denied for pace or volume. */
module Cadence {
  import opened Declines
  import opened Guardrail
  import opened Replays
  import R = RetrySequence
  import Saga

  /** The least gap a plan leaves between two of its charges, and the most charges it makes. */
  const LEAST_GAP: nat := 240
  const MOST_CHARGES: nat := 4

  /** Caps that every cadence fits under. */
  ghost predicate Roomy(p: Policy) {
    p.caps.Some? && forall n :: p.caps.value(n).minMinutes <= LEAST_GAP && p.caps.value(n).maxAttempts >= MOST_CHARGES
  }

  /** A step as a live attempt: at its time, under its number, with no interval of the caller's own. */
  predicate Attempts(r: Request, step: R.Step, code: Code) {
    && r.now == step.at && r.attemptNumber == step.attempt && r.callerMinutes.None?
    && (r.kind == FreshCredentialCharge || (r.kind == ChargeRetry && r.code == code))
  }

  /** The plan's steps up to here, each attempted on time; on which credentials and networks is open. */
  ghost predicate WalkedOnTime(rs: seq<Request>, steps: seq<R.Step>, code: Code) {
    |rs| <= |steps| && forall i :: 0 <= i < |rs| ==> Attempts(rs[i], steps[i], code)
  }

  function KeyOf(r: Request): string { CredentialKey(r.invoiceId, r.token) }

  /** A credential used since has at most this many charges, the last of them no later than this. */
  ghost predicate UsedSince(s: State, key: string, charges: nat, latest: int) {
    key in s.counts ==> s.counts[key].count <= charges && s.counts[key].lastAt <= latest
  }

  lemma GapsOfStrategy(c: Code, n: Network, i: nat)
    requires 0 < i < |R.StrategyFor(c, n).delaysMinutes|
    ensures R.StrategyFor(c, n).delaysMinutes[i] >= LEAST_GAP
  {
  }

  lemma StepsApart(steps: seq<R.Step>, code: Code, base: int, days: real, ctx: R.Context, i: nat)
    requires R.IsPlan(steps, base, days, ctx, R.StrategyFor(code, ctx.network)) && 0 < i < |steps|
    ensures steps[i].at - steps[i - 1].at >= LEAST_GAP * MINUTE
  {
    var s := R.StrategyFor(code, ctx.network);
    GapsOfStrategy(code, ctx.network, i);
    assert steps[i].at == R.TimeOf(ctx, s, i) && steps[i - 1].at == R.TimeOf(ctx, s, i - 1);
  }

  /** An attempt on a credential with few charges, the last long enough ago, meets only the attempt cap. */
  lemma OnlyAttemptCap(s: State, r: Request, p: Policy, charges: nat, latest: int)
    requires RetriesAllowed(r) && r.callerMinutes.None? && Roomy(p)
    requires UsedSince(s, KeyOf(r), charges, latest) && charges < MOST_CHARGES
    requires KeyOf(r) in s.counts ==> r.now - latest >= LEAST_GAP * MINUTE
    ensures VerdictOn(s, r, p) == if r.attemptNumber <= p.maxRetryAttempts then Allow else Deny(RetryCapReached)
  {
    if KeyOf(r) in s.counts {
      assert (r.now - s.counts[KeyOf(r)].lastAt) / MINUTE >= LEAST_GAP;
    }
  }

  /** After i attempts, a credential that was unused has at most i charges, none after the i-th attempt. */
  lemma {:induction false} UsedByPrefix(s: State, rs: seq<Request>, p: Policy, key: string, latest: int)
    requires key !in s.counts && forall i :: 0 <= i < |rs| ==> rs[i].now <= latest
    ensures UsedSince(HandledAll(s, rs, p), key, |rs|, latest)
  {
    if rs != [] { UsedByPrefix(s, rs[..|rs| - 1], p, key, latest); }
  }


  lemma PlannedRetriesAllowed(r: Request, step: R.Step, code: Code)
    requires Attempts(r, step, code) && Classify(code) == RetryIt
    ensures RetriesAllowed(r)
  {
  }

  lemma EarlierAttempts(rs: seq<Request>, steps: seq<R.Step>, code: Code, base: int, days: real, ctx: R.Context, i: nat)
    requires Classify(code) == RetryIt && R.IsPlan(steps, base, days, ctx, R.StrategyFor(code, ctx.network))
    requires WalkedOnTime(rs, steps, code) && 0 < i < |rs|
    ensures forall j :: 0 <= j < i ==> rs[..i][j].now <= steps[i - 1].at
  {
    R.PlanIsSound(steps, code, base, days, ctx);
    forall j | 0 <= j < i ensures rs[..i][j].now <= steps[i - 1].at {
      assert rs[..i][j] == rs[j] && Attempts(rs[j], steps[j], code);
      if j < i - 1 { assert steps[j].at < steps[i - 1].at; }
    }
  }

  /**
   * For every decline worth retrying, every plan of it, and every credentials unused so far: walked on time, whatever
   * the processor answers, each attempt is allowed exactly up to the global attempt cap. No attempt is ever denied for
   * the minimum interval or for the network's window cap.
   */
  lemma PlanKeepsPace(s: State, rs: seq<Request>, p: Policy, steps: seq<R.Step>, code: Code, base: int, days: real,
                      ctx: R.Context, i: nat)
    requires Classify(code) == RetryIt && R.IsPlan(steps, base, days, ctx, R.StrategyFor(code, ctx.network))
    requires WalkedOnTime(rs, steps, code) && i < |rs| && KeyOf(rs[i]) !in s.counts && Roomy(p)
    ensures VerdictOn(HandledAll(s, rs[..i], p), rs[i], p)
            == if base + i <= p.maxRetryAttempts then Allow else Deny(RetryCapReached)
  {
    var prior, key := HandledAll(s, rs[..i], p), KeyOf(rs[i]);
    R.PlanIsSound(steps, code, base, days, ctx);
    assert Attempts(rs[i], steps[i], code);
    PlannedRetriesAllowed(rs[i], steps[i], code);
    if i > 0 {
      EarlierAttempts(rs, steps, code, base, days, ctx, i);
      UsedByPrefix(s, rs[..i], p, key, steps[i - 1].at);
      StepsApart(steps, code, base, days, ctx, i);
      OnlyAttemptCap(prior, rs[i], p, i, steps[i - 1].at);
    } else {
      assert rs[..0] == [] && prior == s;
      OnlyAttemptCap(prior, rs[i], p, 0, 0);
    }
  }

  /** The default policy is roomy: there, only attempts beyond the eighth are denied. */
  lemma DefaultKeepsPace(s: State, rs: seq<Request>, steps: seq<R.Step>, code: Code, base: int, days: real,
                         ctx: R.Context, i: nat)
    requires Classify(code) == RetryIt && R.IsPlan(steps, base, days, ctx, R.StrategyFor(code, ctx.network))
    requires WalkedOnTime(rs, steps, code) && i < |rs| && KeyOf(rs[i]) !in s.counts
    ensures VerdictOn(HandledAll(s, rs[..i], DEFAULT_POLICY), rs[i], DEFAULT_POLICY)
            == if base + i <= 8 then Allow else Deny(RetryCapReached)
  {
    PlanKeepsPace(s, rs, DEFAULT_POLICY, steps, code, base, days, ctx, i);
  }

  /** These executions of the plan's steps, as live attempts. */
  ghost predicate Executes(rs: seq<Request>, xs: seq<Saga.Execution>, code: Code) {
    && |rs| == |xs|
    && forall i :: 0 <= i < |rs| ==>
         && rs[i].now == xs[i].at && rs[i].attemptNumber == xs[i].attempt && rs[i].callerMinutes.None?
         && (rs[i].kind == FreshCredentialCharge || (rs[i].kind == ChargeRetry && rs[i].code == code))
  }

  /** A sequenced saga that starts when its plan is made, or before, walks it on time. */
  lemma SagaWalksOnTime(xs: seq<Saga.Execution>, rs: seq<Request>, steps: seq<R.Step>, code: Code, base: int,
                        days: real, ctx: R.Context, start: int)
    requires Classify(code) == RetryIt && R.IsPlan(steps, base, days, ctx, R.StrategyFor(code, ctx.network))
    requires R.WalksPlan(xs, steps) && R.OnSchedule(xs, steps, start) && start <= ctx.now && Executes(rs, xs, code)
    ensures WalkedOnTime(rs, steps, code)
  {
    R.PlanIsSound(steps, code, base, days, ctx);
    forall i | 0 <= i < |rs| ensures Attempts(rs[i], steps[i], code) {
      R.ScheduleKept(xs, steps, start, ctx.now, i);
      assert xs[i].attempt == steps[i].attempt;
    }
  }

  /** So under the default policy no execution of a sequenced saga on fresh credentials is denied for its pace. */
  lemma SagaKeepsPace(s: State, xs: seq<Saga.Execution>, rs: seq<Request>, steps: seq<R.Step>, code: Code, base: int,
                      days: real, ctx: R.Context, start: int, i: nat)
    requires Classify(code) == RetryIt && R.IsPlan(steps, base, days, ctx, R.StrategyFor(code, ctx.network))
    requires R.WalksPlan(xs, steps) && R.OnSchedule(xs, steps, start) && start <= ctx.now && Executes(rs, xs, code)
    requires i < |rs| && KeyOf(rs[i]) !in s.counts
    ensures VerdictOn(HandledAll(s, rs[..i], DEFAULT_POLICY), rs[i], DEFAULT_POLICY)
            == if base + i <= 8 then Allow else Deny(RetryCapReached)
  {
    SagaWalksOnTime(xs, rs, steps, code, base, days, ctx, start);
    DefaultKeepsPace(s, rs, steps, code, base, days, ctx, i);
  }
}
