/** The compliance guardrail, the per-credential counter, and what they guarantee over any run of charges. */
module Guardrail {
  import opened Declines
  import opened Wrappers

  datatype ActionKind = ChargeRetry | FreshCredentialCharge | Comms | Unrecognized

  datatype ProposedAction = ProposedAction(
    kind: ActionKind, code: Code, attemptsSoFar: int, network: Option<Network>, attemptsInWindow: Option<int>,
    minutesSinceLast: Option<int>, localHour: int, hasConsent: bool, optedOut: bool)

  datatype NetworkCap = NetworkCap(maxAttempts: nat, minMinutes: nat)

  datatype Policy = Policy(maxRetryAttempts: nat, caps: Option<Network -> NetworkCap>, quietStart: int, quietEnd: int)

  datatype Reason =
    | OptedOut | HardDecline | NonRetriableCode | RetryCapReached | MinIntervalNotElapsed | WindowCapReached
    | NoConsent | QuietHours | UnknownAction

  datatype Verdict = Allow | Deny(reason: Reason)

  function InQuietHours(hour: int, start: int, end: int): bool {
    if start == end then false
    else if start > end then hour >= start || hour < end
    else start <= hour < end
  }

  function EvaluateCharge(a: ProposedAction, p: Policy): Verdict {
    if a.attemptsSoFar >= p.maxRetryAttempts then Deny(RetryCapReached)
    else if p.caps.None? then Allow
    else
      var cap := p.caps.value(if a.network.Some? then a.network.value else OtherNetwork);
      if a.minutesSinceLast.Some? && a.minutesSinceLast.value < cap.minMinutes then Deny(MinIntervalNotElapsed)
      else if (if a.attemptsInWindow.Some? then a.attemptsInWindow.value else a.attemptsSoFar) >= cap.maxAttempts
      then Deny(WindowCapReached)
      else Allow
  }

  function Evaluate(a: ProposedAction, p: Policy): Verdict {
    if a.optedOut then Deny(OptedOut)
    else if a.kind == ChargeRetry && FamilyOf(a.code) == Hard then Deny(HardDecline)
    else if a.kind == ChargeRetry && !IsRetriable(a.code) then Deny(NonRetriableCode)
    else if a.kind == ChargeRetry || a.kind == FreshCredentialCharge then EvaluateCharge(a, p)
    else if a.kind == Comms then
      if !a.hasConsent then Deny(NoConsent)
      else if InQuietHours(a.localHour, p.quietStart, p.quietEnd) then Deny(QuietHours)
      else Allow
    else Deny(UnknownAction)
  }

  function DefaultCap(n: Network): NetworkCap {
    match n
    case Visa => NetworkCap(15, 60)
    case Mastercard | Amex | Discover => NetworkCap(10, 60)
    case OtherNetwork => NetworkCap(8, 60)
  }

  const DEFAULT_POLICY: Policy := Policy(8, Some(DefaultCap), 21, 8)

  // ----- the per-credential counter -----

  const MINUTE: int := 60_000

  datatype Attempts = Attempts(count: nat, lastAt: int)

  datatype Window = Window(attemptsInWindow: nat, minutesSinceLast: Option<int>)

  /** Minutes elapsed, rounded down; nothing without a saga-clock time. */
  function MinutesBetween(now: Option<int>, lastAt: int): Option<int> {
    if now.None? then None else Some((now.value - lastAt) / MINUTE)
  }

  function WindowOf(m: map<string, Attempts>, key: string, now: Option<int>): Window {
    if key !in m then Window(0, None) else Window(m[key].count, MinutesBetween(now, m[key].lastAt))
  }

  function Incremented(m: map<string, Attempts>, key: string, now: int): map<string, Attempts> {
    m[key := Attempts((if key in m then m[key].count else 0) + 1, now)]
  }

  class InMemoryCredentialAttemptStore {
    var m: map<string, Attempts>

    constructor ()
      ensures m == map[]
    {
      m := map[];
    }

    method GetWindow(key: string, now: Option<int>) returns (w: Window)
      ensures w == WindowOf(m, key, now)
    {
      if key !in m { return Window(0, None); }
      w := Window(m[key].count, MinutesBetween(now, m[key].lastAt));
    }

    method Increment(key: string, now: int)
      modifies this
      ensures m == Incremented(old(m), key, now)
    {
      var count := if key in m then m[key].count else 0;
      m := m[key := Attempts(count + 1, now)];
    }
  }

  // ----- a live charge attempt -----

  /** now is the saga clock; processorAnswers is false when the adapter throws before anything is counted. */
  datatype Request = Request(
    kind: ActionKind, code: Code, invoiceId: string, token: string, network: Network, attemptNumber: int, now: int,
    callerMinutes: Option<int>, processorAnswers: bool)

  /** A completed charge, as the ledger records it. */
  datatype Charge = Charge(key: string, network: Network, at: int, attempt: int)

  function CredentialKey(invoiceId: string, token: string): string { invoiceId + ":" + token }

  function Proposal(r: Request, w: Window): ProposedAction {
    ProposedAction(r.kind, r.code, r.attemptNumber - 1, Some(r.network), Some(w.attemptsInWindow),
                   if w.minutesSinceLast.Some? then w.minutesSinceLast else r.callerMinutes, 0, true, false)
  }

  datatype State = State(counts: map<string, Attempts>, charges: seq<Charge>)

  function Handled(s: State, r: Request, p: Policy): State {
    var key := CredentialKey(r.invoiceId, r.token);
    if Evaluate(Proposal(r, WindowOf(s.counts, key, Some(r.now))), p) == Allow && r.processorAnswers
    then State(Incremented(s.counts, key, r.now), s.charges + [Charge(key, r.network, r.now, r.attemptNumber)])
    else s
  }

  class RecoveryCaseService {
    const policy: Policy
    const credentialAttempts: InMemoryCredentialAttemptStore
    var charges: seq<Charge>

    constructor (policy: Policy, store: InMemoryCredentialAttemptStore)
      ensures this.policy == policy && credentialAttempts == store && charges == []
    {
      this.policy, credentialAttempts, charges := policy, store, [];
    }

    /** Window, guardrail, charge, count, record: in that order, with the guardrail before any money. */
    method AttemptRecovery(r: Request) returns (verdict: Verdict)
      modifies this, credentialAttempts
      ensures State(credentialAttempts.m, charges) == Handled(State(old(credentialAttempts.m), old(charges)), r, policy)
      ensures verdict == Evaluate(Proposal(r, WindowOf(old(credentialAttempts.m), CredentialKey(r.invoiceId, r.token),
                                                       Some(r.now))), policy)
      ensures verdict != Allow ==> charges == old(charges)
    {
      var key := CredentialKey(r.invoiceId, r.token);
      var window := credentialAttempts.GetWindow(key, Some(r.now));
      verdict := Evaluate(Proposal(r, window), policy);
      if verdict != Allow { return; }
      if !r.processorAnswers { return; }
      credentialAttempts.Increment(key, r.now);
      charges := charges + [Charge(key, r.network, r.now, r.attemptNumber)];
    }
  }

  // ----- safety over whole runs -----

  ghost function CountOn(charges: seq<Charge>, key: string): nat {
    if charges == [] then 0
    else CountOn(charges[..|charges| - 1], key) + if charges[|charges| - 1].key == key then 1 else 0
  }

  ghost predicate LastOn(charges: seq<Charge>, key: string, i: int) {
    && 0 <= i < |charges| && charges[i].key == key
    && forall k :: i < k < |charges| ==> charges[k].key != key
  }

  /** The counter is the log: how many charges on each credential, and when the last was. */
  ghost predicate CountsMatch(s: State) {
    && (forall key :: key in s.counts <==> CountOn(s.charges, key) > 0)
    && (forall key :: key in s.counts ==> s.counts[key].count == CountOn(s.charges, key))
    && (forall key, i :: key in s.counts && LastOn(s.charges, key, i) ==> s.charges[i].at == s.counts[key].lastAt)
  }

  /** i and j are consecutive charges on one credential. */
  ghost predicate Consecutive(charges: seq<Charge>, i: int, j: int) {
    && 0 <= i < j < |charges| && charges[i].key == charges[j].key
    && forall k :: i < k < j ==> charges[k].key != charges[i].key
  }

  /** The i-th charge respected its network's cap when it was made. */
  ghost predicate WithinCap(charges: seq<Charge>, i: nat, caps: Network -> NetworkCap)
    requires i < |charges|
  {
    CountOn(charges[..i], charges[i].key) < caps(charges[i].network).maxAttempts
  }

  ghost predicate FarEnough(earlier: Charge, later: Charge, caps: Network -> NetworkCap) {
    later.at - earlier.at >= caps(later.network).minMinutes * MINUTE
  }

  ghost predicate Compliant(charges: seq<Charge>, p: Policy) {
    && p.caps.Some?
    && (forall i :: 0 <= i < |charges| ==> charges[i].attempt <= p.maxRetryAttempts)
    && (forall i :: 0 <= i < |charges| ==> WithinCap(charges, i, p.caps.value))
    && (forall i, j :: Consecutive(charges, i, j) ==> FarEnough(charges[i], charges[j], p.caps.value))
  }

  lemma ElapsedMinutes(now: int, last: int, minutes: nat)
    requires (now - last) / MINUTE >= minutes
    ensures now - last >= minutes * MINUTE
  {
  }

  lemma CountOnNext(charges: seq<Charge>, c: Charge, key: string)
    ensures CountOn(charges + [c], key) == CountOn(charges, key) + if c.key == key then 1 else 0
  {
    assert (charges + [c])[..|charges|] == charges;
  }

  lemma ChargeKeepsCounts(s: State, c: Charge)
    requires CountsMatch(s)
    ensures CountsMatch(State(Incremented(s.counts, c.key, c.at), s.charges + [c]))
  {
    var s' := State(Incremented(s.counts, c.key, c.at), s.charges + [c]);
    forall key ensures CountOn(s'.charges, key) == CountOn(s.charges, key) + if c.key == key then 1 else 0 {
      CountOnNext(s.charges, c, key);
    }
    forall key, i | key in s'.counts && LastOn(s'.charges, key, i) ensures s'.charges[i].at == s'.counts[key].lastAt {
      if key != c.key { assert LastOn(s.charges, key, i); } else { assert i == |s.charges|; }
    }
  }

  /** What a new charge has to respect, given the counter. */
  ghost predicate Admitted(s: State, c: Charge, p: Policy) {
    && p.caps.Some? && c.attempt <= p.maxRetryAttempts
    && CountOn(s.charges, c.key) < p.caps.value(c.network).maxAttempts
    && (c.key in s.counts ==> c.at - s.counts[c.key].lastAt >= p.caps.value(c.network).minMinutes * MINUTE)
  }

  /** An allowed charge is within the caps, and late enough after the last one on its credential. */
  lemma AllowedIsWithinCaps(s: State, r: Request, p: Policy)
    requires p.caps.Some? && (r.kind == ChargeRetry || r.kind == FreshCredentialCharge) && CountsMatch(s)
    requires Evaluate(Proposal(r, WindowOf(s.counts, CredentialKey(r.invoiceId, r.token), Some(r.now))), p) == Allow
    ensures Admitted(s, Charge(CredentialKey(r.invoiceId, r.token), r.network, r.now, r.attemptNumber), p)
  {
    var key := CredentialKey(r.invoiceId, r.token);
    if key in s.counts {
      ElapsedMinutes(r.now, s.counts[key].lastAt, p.caps.value(r.network).minMinutes);
    }
  }

  lemma PrefixWithinCap(charges: seq<Charge>, k: nat, i: nat, caps: Network -> NetworkCap)
    requires i < k <= |charges|
    ensures WithinCap(charges[..k], i, caps) == WithinCap(charges, i, caps)
  {
    assert charges[..k][..i] == charges[..i];
  }

  lemma {:induction false} OnMeansCounted(charges: seq<Charge>, i: nat)
    requires i < |charges|
    ensures CountOn(charges, charges[i].key) > 0
  {
    if i < |charges| - 1 { OnMeansCounted(charges[..|charges| - 1], i); }
  }

  lemma NewChargeFarEnough(s: State, c: Charge, p: Policy, i: int)
    requires CountsMatch(s) && Admitted(s, c, p) && Consecutive(s.charges + [c], i, |s.charges|)
    ensures FarEnough((s.charges + [c])[i], c, p.caps.value)
  {
    var cs := s.charges + [c];
    forall k | i < k < |s.charges| ensures s.charges[k].key != c.key {
      assert cs[k].key != cs[i].key;
    }
    assert LastOn(s.charges, c.key, i);
    OnMeansCounted(s.charges, i);
  }

  lemma PrefixConsecutive(charges: seq<Charge>, k: nat, i: int, j: int)
    requires 0 <= i < j < k <= |charges|
    ensures Consecutive(charges[..k], i, j) == Consecutive(charges, i, j)
  {
    var cs := charges[..k];
    assert forall m :: i <= m <= j ==> cs[m] == charges[m];
    if Consecutive(cs, i, j) {
      forall m | i < m < j ensures charges[m].key != charges[i].key { assert cs[m].key != cs[i].key; }
    }
  }

  lemma ChargeKeepsCompliant(s: State, c: Charge, p: Policy)
    requires CountsMatch(s) && Compliant(s.charges, p) && Admitted(s, c, p)
    ensures Compliant(s.charges + [c], p)
  {
    var cs, n := s.charges + [c], |s.charges|;
    assert cs[..n] == s.charges;
    forall i | 0 <= i < |cs| ensures WithinCap(cs, i, p.caps.value) {
      if i < n { PrefixWithinCap(cs, n, i, p.caps.value); }
    }
    forall i, j | Consecutive(cs, i, j) ensures FarEnough(cs[i], cs[j], p.caps.value) {
      if j < n { PrefixConsecutive(cs, n, i, j); } else { NewChargeFarEnough(s, c, p, i); }
    }
  }

  ghost predicate SafeState(s: State, p: Policy) {
    CountsMatch(s) && Compliant(s.charges, p)
  }

  lemma AttemptKeepsSafe(s: State, r: Request, p: Policy)
    requires SafeState(s, p) && (r.kind == ChargeRetry || r.kind == FreshCredentialCharge)
    ensures SafeState(Handled(s, r, p), p)
  {
    var key := CredentialKey(r.invoiceId, r.token);
    if Handled(s, r, p) != s {
      AllowedIsWithinCaps(s, r, p);
      ChargeKeepsCounts(s, Charge(key, r.network, r.now, r.attemptNumber));
      ChargeKeepsCompliant(s, Charge(key, r.network, r.now, r.attemptNumber), p);
    }
  }

  ghost function HandledAll(s: State, rs: seq<Request>, p: Policy): State {
    if rs == [] then s else Handled(HandledAll(s, rs[..|rs| - 1], p), rs[|rs| - 1], p)
  }

  /**
   * Over any run of live attempts: attempt numbers stay within the global cap, the n-th charge on a
   * credential within its network's cap, and consecutive ones are the minimum interval apart in saga time.
   */
  lemma {:induction false} RunIsCompliant(rs: seq<Request>, p: Policy)
    requires p.caps.Some? && forall i :: 0 <= i < |rs| ==>
              rs[i].kind == ChargeRetry || rs[i].kind == FreshCredentialCharge
    ensures SafeState(HandledAll(State(map[], []), rs, p), p)
  {
    if rs != [] {
      RunIsCompliant(rs[..|rs| - 1], p);
      AttemptKeepsSafe(HandledAll(State(map[], []), rs[..|rs| - 1], p), rs[|rs| - 1], p);
    }
  }

  lemma PrefixCompliant(charges: seq<Charge>, p: Policy, k: nat)
    requires Compliant(charges, p) && k <= |charges|
    ensures Compliant(charges[..k], p)
  {
    forall i | 0 <= i < k ensures WithinCap(charges[..k], i, p.caps.value) {
      PrefixWithinCap(charges, k, i, p.caps.value);
    }
    forall i, j | Consecutive(charges[..k], i, j) ensures FarEnough(charges[..k][i], charges[..k][j], p.caps.value) {
      PrefixConsecutive(charges, k, i, j);
    }
  }

  /** A credential always charged on one network never exceeds that network's cap. */
  lemma {:induction false} CapHolds(charges: seq<Charge>, p: Policy, key: string, n: Network)
    requires Compliant(charges, p)
    requires forall i :: 0 <= i < |charges| && charges[i].key == key ==> charges[i].network == n
    ensures CountOn(charges, key) <= p.caps.value(n).maxAttempts
  {
    if charges != [] {
      var k := |charges| - 1;
      PrefixCompliant(charges, p, k);
      CapHolds(charges[..k], p, key, n);
      assert WithinCap(charges, k, p.caps.value);
    }
  }
}
