/** The cross-merchant flywheel: processes learn locally and pool their deltas in one stored model. */
module Flywheel {
  import opened LinearAlgebra
  import opened RidgeModel
  import opened ContextualBandit
  import opened Permutations
  import opened Wrappers

  /** One outcome, for the arm that earned it. */
  datatype Lesson = Lesson(arm: Arm, o: Observation)

  ghost predicate LessonsOfDim(lessons: seq<Lesson>, d: nat) {
    forall k :: 0 <= k < |lessons| ==> |lessons[k].o.x| == d
  }

  function EmptyState(d: nat, ridge: real): (s: BanditState)
    ensures StateShaped(s) && s.dim == d
  {
    BanditState(d, ridge, FreshArm(d, ridge), FreshArm(d, ridge))
  }

  function Taught(s: BanditState, l: Lesson): (r: BanditState)
    requires StateShaped(s) && |l.o.x| == s.dim
    ensures StateShaped(r) && r.dim == s.dim && r.ridge == s.ridge
  {
    match l.arm
    case Retry => s.(retry := Observed(s.retry, l.o))
    case CardUpdateComms => s.(comms := Observed(s.comms, l.o))
  }

  /** The state after learning every lesson in turn. */
  ghost function TaughtAll(s: BanditState, lessons: seq<Lesson>): (r: BanditState)
    requires StateShaped(s) && LessonsOfDim(lessons, s.dim)
    ensures StateShaped(r) && r.dim == s.dim && r.ridge == s.ridge
  {
    if lessons == [] then s
    else Taught(TaughtAll(s, lessons[..|lessons| - 1]), lessons[|lessons| - 1])
  }

  // ----- the additive merge -----

  function MergedArm(p: ArmSnapshot, c: ArmSnapshot, base: ArmSnapshot, d: nat): (r: ArmSnapshot)
    requires WellShaped(p, d) && WellShaped(c, d) && WellShaped(base, d)
    ensures WellShaped(r, d)
    ensures forall i, j :: 0 <= i < d && 0 <= j < d ==> r.a[i][j] == p.a[i][j] + (c.a[i][j] - base.a[i][j])
  {
    ArmSnapshot(
      seq(d, i requires 0 <= i < d => seq(d, j requires 0 <= j < d => p.a[i][j] + (c.a[i][j] - base.a[i][j]))),
      seq(d, i requires 0 <= i < d => p.b[i] + (c.b[i] - base.b[i])),
      p.n + (c.n - base.n))
  }

  function Merged(persisted: BanditState, current: BanditState, baseline: BanditState): (r: BanditState)
    requires StateShaped(persisted) && StateShaped(current) && StateShaped(baseline)
    requires persisted.dim == current.dim == baseline.dim
    ensures StateShaped(r) && r.dim == persisted.dim
  {
    persisted.(retry := MergedArm(persisted.retry, current.retry, baseline.retry, persisted.dim),
               comms := MergedArm(persisted.comms, current.comms, baseline.comms, persisted.dim))
  }

  method MergeArm(p: ArmSnapshot, c: ArmSnapshot, base: ArmSnapshot, d: nat) returns (r: ArmSnapshot)
    requires WellShaped(p, d) && WellShaped(c, d) && WellShaped(base, d)
    ensures r == MergedArm(p, c, base, d)
  {
    var a := p.a;
    for i := 0 to d
      invariant IsSquare(a, d)
      invariant forall k :: 0 <= k < i ==> a[k] == MergedArm(p, c, base, d).a[k]
      invariant forall k :: i <= k < d ==> a[k] == p.a[k]
    {
      var row := a[i];
      for j := 0 to d
        invariant |row| == d
        invariant forall q :: 0 <= q < j ==> row[q] == p.a[i][q] + (c.a[i][q] - base.a[i][q])
        invariant forall q :: j <= q < d ==> row[q] == p.a[i][q]
      {
        row := row[j := row[j] + (c.a[i][j] - base.a[i][j])];
      }
      a := a[i := row];
    }
    var b := p.b;
    for i := 0 to d
      invariant |b| == d
      invariant forall q :: 0 <= q < i ==> b[q] == p.b[q] + (c.b[q] - base.b[q])
      invariant forall q :: i <= q < d ==> b[q] == p.b[q]
    {
      b := b[i := b[i] + (c.b[i] - base.b[i])];
    }
    r := ArmSnapshot(a, b, p.n + (c.n - base.n));
  }

  method MergeBanditDelta(persisted: BanditState, current: BanditState, baseline: BanditState) returns (r: BanditState)
    requires StateShaped(persisted) && StateShaped(current) && StateShaped(baseline)
    requires persisted.dim == current.dim == baseline.dim
    ensures r == Merged(persisted, current, baseline)
  {
    var retry := MergeArm(persisted.retry, current.retry, baseline.retry, persisted.dim);
    var comms := MergeArm(persisted.comms, current.comms, baseline.comms, persisted.dim);
    r := persisted.(retry := retry, comms := comms);
  }

  ghost predicate SameEntries(s: ArmSnapshot, t: ArmSnapshot, d: nat) {
    && WellShaped(s, d) && WellShaped(t, d) && s.n == t.n
    && (forall i, j :: 0 <= i < d && 0 <= j < d ==> s.a[i][j] == t.a[i][j])
    && (forall i :: 0 <= i < d ==> s.b[i] == t.b[i])
  }

  lemma SameEntriesEqual(s: ArmSnapshot, t: ArmSnapshot, d: nat)
    requires SameEntries(s, t, d)
    ensures s == t
  {
    forall i | 0 <= i < d ensures s.a[i] == t.a[i] {}
  }

  lemma MergeNothing(p: ArmSnapshot, base: ArmSnapshot, d: nat)
    requires WellShaped(p, d) && WellShaped(base, d)
    ensures MergedArm(p, base, base, d) == p
  {
    SameEntriesEqual(MergedArm(p, base, base, d), p, d);
  }

  lemma MergeOne(p: ArmSnapshot, c: ArmSnapshot, base: ArmSnapshot, o: Observation)
    requires WellShaped(p, |o.x|) && WellShaped(c, |o.x|) && WellShaped(base, |o.x|)
    ensures MergedArm(p, Observed(c, o), base, |o.x|) == Observed(MergedArm(p, c, base, |o.x|), o)
  {
    SameEntriesEqual(MergedArm(p, Observed(c, o), base, |o.x|), Observed(MergedArm(p, c, base, |o.x|), o), |o.x|);
  }

  /** Merging a delta teaches the stored model exactly the lessons learned since the baseline. */
  lemma {:induction false} MergeTeaches(persisted: BanditState, start: BanditState, baseline: BanditState,
                                        lessons: seq<Lesson>)
    requires StateShaped(persisted) && StateShaped(start) && StateShaped(baseline)
    requires persisted.dim == start.dim == baseline.dim && LessonsOfDim(lessons, persisted.dim)
    ensures Merged(persisted, TaughtAll(start, lessons), baseline)
            == TaughtAll(Merged(persisted, start, baseline), lessons)
  {
    if lessons != [] {
      var rest, l := lessons[..|lessons| - 1], lessons[|lessons| - 1];
      MergeTeaches(persisted, start, baseline, rest);
      var c := TaughtAll(start, rest);
      match l.arm
      case Retry => MergeOne(persisted.retry, c.retry, baseline.retry, l.o);
      case CardUpdateComms => MergeOne(persisted.comms, c.comms, baseline.comms, l.o);
    }
  }

  lemma MergeDelta(persisted: BanditState, baseline: BanditState, pending: seq<Lesson>)
    requires StateShaped(persisted) && StateShaped(baseline)
    requires persisted.dim == baseline.dim && LessonsOfDim(pending, persisted.dim)
    ensures Merged(persisted, TaughtAll(baseline, pending), baseline) == TaughtAll(persisted, pending)
  {
    MergeTeaches(persisted, baseline, baseline, pending);
    MergeNothing(persisted.retry, baseline.retry, persisted.dim);
    MergeNothing(persisted.comms, baseline.comms, persisted.dim);
  }

  // ----- the order of lessons does not matter -----

  lemma {:induction false} TaughtConcat(s: BanditState, first: seq<Lesson>, second: seq<Lesson>)
    requires StateShaped(s) && LessonsOfDim(first, s.dim) && LessonsOfDim(second, s.dim)
    ensures LessonsOfDim(first + second, s.dim)
    ensures TaughtAll(s, first + second) == TaughtAll(TaughtAll(s, first), second)
  {
    if second == [] {
      assert first + second == first;
    } else {
      var rest := second[..|second| - 1];
      TaughtConcat(s, first, rest);
      assert (first + second)[..|first + second| - 1] == first + rest;
    }
  }

  lemma TaughtCommutes(s: BanditState, k: Lesson, l: Lesson)
    requires StateShaped(s) && |k.o.x| == s.dim && |l.o.x| == s.dim
    ensures Taught(Taught(s, k), l) == Taught(Taught(s, l), k)
  {
    if k.arm == l.arm {
      var arm := if k.arm == Retry then s.retry else s.comms;
      SameEntriesEqual(Observed(Observed(arm, k.o), l.o), Observed(Observed(arm, l.o), k.o), s.dim);
    }
  }

  lemma {:induction false} TaughtLast(s: BanditState, l: Lesson, rest: seq<Lesson>)
    requires StateShaped(s) && |l.o.x| == s.dim && LessonsOfDim(rest, s.dim)
    ensures TaughtAll(Taught(s, l), rest) == Taught(TaughtAll(s, rest), l)
  {
    if rest != [] {
      TaughtLast(s, l, rest[..|rest| - 1]);
      TaughtCommutes(TaughtAll(s, rest[..|rest| - 1]), l, rest[|rest| - 1]);
    }
  }

  lemma TaughtNext(s: BanditState, lessons: seq<Lesson>, l: Lesson)
    requires StateShaped(s) && LessonsOfDim(lessons, s.dim) && |l.o.x| == s.dim
    ensures LessonsOfDim(lessons + [l], s.dim)
    ensures TaughtAll(s, lessons + [l]) == Taught(TaughtAll(s, lessons), l)
  {
    assert (lessons + [l])[..|lessons|] == lessons;
  }

  lemma MovedToEnd(s: BanditState, before: seq<Lesson>, l: Lesson, after: seq<Lesson>)
    requires StateShaped(s) && LessonsOfDim(before, s.dim) && |l.o.x| == s.dim && LessonsOfDim(after, s.dim)
    ensures LessonsOfDim((before + [l]) + after, s.dim) && LessonsOfDim(before + after, s.dim)
    ensures TaughtAll(s, (before + [l]) + after) == Taught(TaughtAll(s, before + after), l)
  {
    TaughtNext(s, before, l);
    TaughtConcat(s, before + [l], after);
    TaughtLast(TaughtAll(s, before), l, after);
    TaughtConcat(s, before, after);
  }

  lemma DimOfParts(lessons: seq<Lesson>, i: nat, d: nat)
    requires LessonsOfDim(lessons, d) && i < |lessons|
    ensures LessonsOfDim(lessons[..i], d) && |lessons[i].o.x| == d && LessonsOfDim(lessons[i + 1..], d)
  {
  }

  lemma TaughtMoveToEnd(s: BanditState, lessons: seq<Lesson>, i: nat)
    requires StateShaped(s) && LessonsOfDim(lessons, s.dim) && i < |lessons|
    ensures LessonsOfDim(lessons[..i] + lessons[i + 1..], s.dim)
    ensures TaughtAll(s, lessons) == Taught(TaughtAll(s, lessons[..i] + lessons[i + 1..]), lessons[i])
  {
    var before, l, after := lessons[..i], lessons[i], lessons[i + 1..];
    assert lessons == (before + [l]) + after;
    DimOfParts(lessons, i, s.dim);
    MovedToEnd(s, before, l, after);
  }

  lemma {:induction false} TaughtPermuted(s: BanditState, p: seq<Lesson>, q: seq<Lesson>)
    requires StateShaped(s) && LessonsOfDim(p, s.dim) && LessonsOfDim(q, s.dim)
    requires multiset(p) == multiset(q)
    ensures TaughtAll(s, p) == TaughtAll(s, q)
  {
    if p == [] {
      OnlyEmpty(q);
    } else {
      var i := LastElsewhere(p, q);
      TaughtMoveToEnd(s, q, i);
      TaughtPermuted(s, p[..|p| - 1], q[..i] + q[i + 1..]);
    }
  }

  // ----- the service around one process's policy -----

  const FLUSH_EVERY: nat := 25

  /** The shared store and what one process keeps; bandit is the view of its live policy. */
  datatype ServiceState = ServiceState(
    saved: Option<BanditState>, bandit: BanditState, baseline: BanditState, sinceFlush: nat)

  ghost predicate ServiceShaped(s: ServiceState, dim: nat) {
    && StateShaped(s.bandit) && s.bandit.dim == dim && StateShaped(s.baseline) && s.baseline.dim == dim
    && (s.saved.Some? ==> StateShaped(s.saved.value) && s.saved.value.dim == dim)
    && s.sinceFlush < FLUSH_EVERY
  }

  /** The state a flush finds in the store. */
  function PersistedOf(s: ServiceState, ridge: real): BanditState {
    if s.saved.Some? then s.saved.value else EmptyState(s.bandit.dim, ridge)
  }

  /** Restoring keeps the policy's own ridge; without a stored state the policy itself is the baseline. */
  function Loaded(s: ServiceState): ServiceState {
    match s.saved
    case Some(state) => s.(bandit := state.(ridge := s.bandit.ridge), baseline := state)
    case None => s.(baseline := s.bandit)
  }

  /** The store gets the delta on top of what it holds, and the process adopts the sum. */
  ghost function Flushed(s: ServiceState, ridge: real, storeUp: bool): ServiceState
    requires ServiceShaped(s, s.bandit.dim)
  {
    if !storeUp then s
    else
      var merged := Merged(PersistedOf(s, ridge), s.bandit, s.baseline);
      ServiceState(Some(merged), merged.(ridge := s.bandit.ridge), merged, 0)
  }

  /** Learn one realized outcome; the 25th since the counter was last reset triggers a flush. */
  ghost function LearnedOnline(s: ServiceState, ridge: real, action: Action, o: Observation,
                               storeUp: bool): ServiceState
    requires ServiceShaped(s, |o.x|)
  {
    if action.Suppress? then s
    else
      var taught := s.(bandit := Taught(s.bandit, Lesson(action.arm, o)));
      if s.sinceFlush + 1 >= FLUSH_EVERY then Flushed(taught.(sinceFlush := 0), ridge, storeUp)
      else taught.(sinceFlush := s.sinceFlush + 1)
  }

  /** A rebuilt policy has learned nothing; the flush baseline stays where it was. */
  function WithChampion(s: ServiceState, ridge: real): ServiceState {
    s.(bandit := EmptyState(s.bandit.dim, ridge))
  }

  class BanditStore {
    var saved: Option<BanditState>
  }

  /** bandit is the View of the process's LinUcbBanditPolicy, whose Update, Snapshot and Restore act on it as here. */
  class FlywheelService {
    const dim: nat
    const ridge: real
    const store: BanditStore
    var bandit: BanditState
    var banditBaseline: BanditState
    var updatesSinceFlush: nat

    ghost predicate Valid()
      reads this, store
    {
      ServiceShaped(State(), dim)
    }

    function State(): ServiceState
      reads this, store
    {
      ServiceState(store.saved, bandit, banditBaseline, updatesSinceFlush)
    }

    constructor (dim: nat, ridge: real, store: BanditStore)
      requires store.saved.Some? ==> StateShaped(store.saved.value) && store.saved.value.dim == dim
      ensures Valid() && this.dim == dim && this.ridge == ridge && this.store == store
      ensures State() == ServiceState(store.saved, EmptyState(dim, ridge), EmptyState(dim, ridge), 0)
    {
      this.dim, this.ridge, this.store := dim, ridge, store;
      bandit, banditBaseline := EmptyState(dim, ridge), EmptyState(dim, ridge);
      updatesSinceFlush := 0;
    }

    method LoadBanditState()
      requires Valid()
      modifies this`bandit, this`banditBaseline
      ensures Valid() && State() == Loaded(old(State()))
    {
      match store.saved
      case Some(state) => bandit, banditBaseline := state.(ridge := bandit.ridge), state;
      case None => banditBaseline := bandit;
    }

    /** One atomic load-merge-save-restore; a store that is down leaves everything as it was. */
    method FlushBanditState(storeUp: bool)
      requires Valid()
      modifies this`bandit, this`banditBaseline, this`updatesSinceFlush, store
      ensures Valid() && State() == Flushed(old(State()), ridge, storeUp)
    {
      if !storeUp { return; }
      var persisted := if store.saved.Some? then store.saved.value else EmptyState(dim, ridge);
      var merged := MergeBanditDelta(persisted, bandit, banditBaseline);
      store.saved := Some(merged);
      bandit := merged.(ridge := bandit.ridge);
      banditBaseline := merged;
      updatesSinceFlush := 0;
    }

    /** One realized outcome: learn it, and flush once enough have gathered. */
    method LearnOnline(action: Action, o: Observation, storeUp: bool)
      requires Valid() && |o.x| == dim
      modifies this`bandit, this`banditBaseline, this`updatesSinceFlush, store
      ensures Valid() && State() == LearnedOnline(old(State()), ridge, action, o, storeUp)
    {
      if action.Suppress? { return; }
      bandit := Taught(bandit, Lesson(action.arm, o));
      updatesSinceFlush := updatesSinceFlush + 1;
      if updatesSinceFlush >= FLUSH_EVERY {
        updatesSinceFlush := 0;
        FlushBanditState(storeUp);
      }
    }

    /** A retrained champion rebuilds the policy but leaves the flush baseline where it was. */
    method UseChampion()
      requires Valid()
      modifies this`bandit
      ensures Valid() && State() == WithChampion(old(State()), ridge)
    {
      bandit := EmptyState(dim, ridge);
    }
  }
}
