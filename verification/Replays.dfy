/** What a crashed and re-run charge activity meets at the guardrail, and what the saga is then told. */
module Replays {
  import opened Declines
  import opened Guardrail
  import opened Wrappers
  import Saga

  /** The guardrail's verdict on a request, given the counter. */
  function VerdictOn(s: State, r: Request, p: Policy): Verdict {
    Evaluate(Proposal(r, WindowOf(s.counts, CredentialKey(r.invoiceId, r.token), Some(r.now))), p)
  }

  predicate IsCharge(r: Request) {
    r.kind == ChargeRetry || r.kind == FreshCredentialCharge
  }

  /**
   * The same request again, at the same saga time, after its charge was counted: it is too soon wherever
   * the network has a minimum interval, and otherwise allowed exactly while the network's cap has room.
   */
  lemma ReplayVerdict(s: State, r: Request, p: Policy)
    requires p.caps.Some? && IsCharge(r) && Handled(s, r, p) != s
    ensures var s', cap := Handled(s, r, p), p.caps.value(r.network);
            var key := CredentialKey(r.invoiceId, r.token);
            && key in s'.counts
            && VerdictOn(s', r, p)
               == if cap.minMinutes > 0 then Deny(MinIntervalNotElapsed)
                  else if s'.counts[key].count >= cap.maxAttempts then Deny(WindowCapReached)
                  else Allow
  {
  }

  /** Every network of the default policy has a minimum interval, so no counted charge is made again. */
  lemma DefaultReplayDenied(s: State, r: Request)
    requires IsCharge(r) && Handled(s, r, DEFAULT_POLICY) != s
    ensures VerdictOn(Handled(s, r, DEFAULT_POLICY), r, DEFAULT_POLICY) == Deny(MinIntervalNotElapsed)
  {
    ReplayVerdict(s, r, DEFAULT_POLICY);
  }

  // ----- the runs of one activity -----

  /** One run: what the processor would draw, whether the run got there, and whether it then counted its charge. */
  datatype Draw = Draw(outcome: Saga.Outcome, reached: bool, counted: bool)

  predicate Counted(d: Draw) { d.reached && d.counted }

  /** A run charges if the guardrail allows it and it does not crash before the processor. */
  function RunOf(s: State, r: Request, p: Policy, d: Draw): Saga.ActivityRun {
    if VerdictOn(s, r, p) != Allow then Saga.Answers(Saga.GuardrailSuppressed)
    else if d.reached then Saga.Charges(d.outcome)
    else Saga.Crashes
  }

  /** It leaves the counter behind only if it got that far. */
  function AfterDraw(s: State, r: Request, p: Policy, d: Draw): State {
    Handled(s, r.(processorAnswers := Counted(d)), p)
  }

  /** The runs of one execute activity, each meeting the counter the earlier ones left. */
  ghost function RunsOf(s: State, r: Request, p: Policy, ds: seq<Draw>): (runs: seq<Saga.ActivityRun>)
    ensures |runs| == |ds|
    decreases |ds|
  {
    if ds == [] then []
    else [RunOf(s, r, p, ds[0])] + RunsOf(AfterDraw(s, r, p, ds[0]), r, p, ds[1..])
  }

  /** A run the guardrail denies changes nothing, so every later one is denied too. */
  lemma {:induction false} DeniedStaysDenied(s: State, r: Request, p: Policy, ds: seq<Draw>)
    requires VerdictOn(s, r, p) != Allow
    ensures forall i :: 0 <= i < |ds| ==> RunsOf(s, r, p, ds)[i] == Saga.Answers(Saga.GuardrailSuppressed)
  {
    if ds != [] {
      assert AfterDraw(s, r, p, ds[0]) == s;
      DeniedStaysDenied(s, r, p, ds[1..]);
    }
  }

  ghost predicate CountedBefore(ds: seq<Draw>, i: int) {
    exists k :: 0 <= k < i && k < |ds| && Counted(ds[k])
  }

  lemma CountedBeforeStep(ds: seq<Draw>, i: nat)
    requires 0 < i <= |ds|
    ensures CountedBefore(ds, i) <==> Counted(ds[0]) || CountedBefore(ds[1..], i - 1)
  {
    if CountedBefore(ds, i) && !Counted(ds[0]) {
      var k :| 0 <= k < i && Counted(ds[k]);
      assert Counted(ds[1..][k - 1]);
    }
  }

  /** A counted run leaves a counter that denies the request; any other run leaves it as it was. */
  lemma CounterAfterDraw(s: State, r: Request, p: Policy, d: Draw)
    requires p.caps.Some? && IsCharge(r) && p.caps.value(r.network).minMinutes > 0 && VerdictOn(s, r, p) == Allow
    ensures if Counted(d) then VerdictOn(AfterDraw(s, r, p, d), r, p) != Allow else AfterDraw(s, r, p, d) == s
  {
    if Counted(d) {
      assert Handled(s, r.(processorAnswers := true), p) != s;
      ReplayVerdict(s, r.(processorAnswers := true), p);
    }
  }

  lemma RunsNext(s: State, r: Request, p: Policy, ds: seq<Draw>, i: nat)
    requires 0 < i < |ds|
    ensures RunsOf(s, r, p, ds)[i] == RunsOf(AfterDraw(s, r, p, ds[0]), r, p, ds[1..])[i - 1]
  {
  }

  /**
   * Under a policy with a minimum interval, the runs of an allowed charge that do not crash first reach the processor
   * up to the first that is counted, and the guardrail stops all those after it.
   */
  lemma {:induction false} RunsUpToFirstCounted(s: State, r: Request, p: Policy, ds: seq<Draw>, i: nat)
    requires p.caps.Some? && IsCharge(r) && p.caps.value(r.network).minMinutes > 0
    requires VerdictOn(s, r, p) == Allow && i < |ds|
    ensures RunsOf(s, r, p, ds)[i]
            == if CountedBefore(ds, i) then Saga.Answers(Saga.GuardrailSuppressed)
               else if ds[i].reached then Saga.Charges(ds[i].outcome) else Saga.Crashes
  {
    if i > 0 {
      var rest, s' := ds[1..], AfterDraw(s, r, p, ds[0]);
      RunsNext(s, r, p, ds, i);
      CountedBeforeStep(ds, i);
      CounterAfterDraw(s, r, p, ds[0]);
      if Counted(ds[0]) {
        DeniedStaysDenied(s', r, p, rest);
      } else {
        RunsUpToFirstCounted(s, r, p, rest, i - 1);
      }
    }
  }

  /** The last run, which answers the saga, got as far as the guardrail and, if allowed, the processor. */
  predicate Answered(ds: seq<Draw>) { ds != [] && ds[|ds| - 1].reached }

  lemma {:induction false} RunsAreHonest(s: State, r: Request, p: Policy, ds: seq<Draw>)
    requires Answered(ds)
    ensures Saga.Honest(RunsOf(s, r, p, ds))
    decreases |ds|
  {
    if |ds| > 1 { RunsAreHonest(AfterDraw(s, r, p, ds[0]), r, p, ds[1..]); }
  }

  lemma {:induction false} NothingDrawn(runs: seq<Saga.ActivityRun>)
    requires forall i :: 0 <= i < |runs| ==> !runs[i].Charges?
    ensures Saga.FirstDrawn(runs) == None
  {
    if runs != [] { NothingDrawn(runs[1..]); }
  }

  /** The outcome of the first run that does not crash before the processor. */
  function FirstReached(ds: seq<Draw>): Option<Saga.Outcome> {
    if ds == [] then None else if ds[0].reached then Some(ds[0].outcome) else FirstReached(ds[1..])
  }

  /** An allowed charge draws what its first run to reach the processor draws. */
  lemma {:induction false} FirstDrawnIsFirstReached(s: State, r: Request, p: Policy, ds: seq<Draw>)
    requires VerdictOn(s, r, p) == Allow
    ensures Saga.FirstDrawn(RunsOf(s, r, p, ds)) == FirstReached(ds)
  {
    if ds != [] && !ds[0].reached {
      assert AfterDraw(s, r, p, ds[0]) == s;
      FirstDrawnIsFirstReached(s, r, p, ds[1..]);
    }
  }

  /**
   * With a minimum interval, a fresh charge that succeeded at the processor is reported to the saga as
   * suppressed exactly when the guardrail let it through, the first run to reach the processor drew a success, and
   * some run but the last crashed after counting its charge.
   */
  lemma CountedReplayHidesSuccess(s: State, r: Request, p: Policy, ds: seq<Draw>,
                                  processor: map<string, Saga.Outcome>, key: string)
    requires p.caps.Some? && IsCharge(r) && p.caps.value(r.network).minMinutes > 0
    requires Answered(ds) && key !in processor
    ensures Saga.Completed(RunsOf(s, r, p, ds))
    ensures Saga.HidesSuccess(processor, key, RunsOf(s, r, p, ds)) <==>
            VerdictOn(s, r, p) == Allow && FirstReached(ds) == Some(Saga.Succeeded) && CountedBefore(ds, |ds| - 1)
  {
    var runs, n := RunsOf(s, r, p, ds), |ds| - 1;
    RunsAreHonest(s, r, p, ds);
    Saga.SuccessHiddenIff(processor, key, runs);
    if VerdictOn(s, r, p) == Allow {
      RunsUpToFirstCounted(s, r, p, ds, n);
      FirstDrawnIsFirstReached(s, r, p, ds);
    } else {
      DeniedStaysDenied(s, r, p, ds);
      NothingDrawn(runs);
    }
  }

  predicate RetriesAllowed(r: Request) {
    r.kind == FreshCredentialCharge || (r.kind == ChargeRetry && FamilyOf(r.code) != Hard && IsRetriable(r.code))
  }

  /**
   * Under the default policy the first charge on a credential, succeeding and counted before its activity crashes,
   * is reported as suppressed, whatever the re-run would have drawn.
   */
  lemma FirstSuccessHidden(r: Request, again: Draw, key: string)
    requires RetriesAllowed(r) && r.attemptNumber <= DEFAULT_POLICY.maxRetryAttempts && r.callerMinutes.None?
    requires again.reached
    ensures var runs := RunsOf(State(map[], []), r, DEFAULT_POLICY, [Draw(Saga.Succeeded, true, true), again]);
            Saga.Completed(runs) && Saga.HidesSuccess(map[], key, runs)
  {
    var unused, ds := State(map[], []), [Draw(Saga.Succeeded, true, true), again];
    assert Counted(ds[0]) && CountedBefore(ds, |ds| - 1);
    assert VerdictOn(unused, r, DEFAULT_POLICY) == Allow;
    CountedReplayHidesSuccess(unused, r, DEFAULT_POLICY, ds, map[], key);
  }
}
