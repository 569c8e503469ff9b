/** Any number of processes learning, loading, flushing and restarting against one stored model. */
module FlywheelProtocol {
  import opened LinearAlgebra
  import opened RidgeModel
  import opened ContextualBandit
  import opened Flywheel
  import opened Wrappers
  import GaussJordan

  /** pending is what the process learned since its baseline. */
  datatype Process = Process(current: BanditState, baseline: BanditState, pending: seq<Lesson>)

  /** flushed, dropped and observed are history: where every lesson ever learned has gone. */
  datatype World = World(
    dim: nat, ridge: real, store: Option<BanditState>, procs: seq<Process>,
    flushed: seq<Lesson>, dropped: multiset<Lesson>, observed: multiset<Lesson>)

  datatype Event =
    | Start | Learn(p: nat, lesson: Lesson) | Load(p: nat) | Flush(p: nat) | FlushFailed(p: nat) | Restart(p: nat)

  ghost predicate Enabled(w: World, e: Event) {
    e.Start? || (e.p < |w.procs| && (e.Learn? ==> |e.lesson.o.x| == w.dim))
  }

  ghost predicate ProcessShaped(w: World, q: Process) {
    && StateShaped(q.current) && q.current.dim == w.dim && q.current.ridge == w.ridge
    && StateShaped(q.baseline) && q.baseline.dim == w.dim && q.baseline.ridge == w.ridge
    && LessonsOfDim(q.pending, w.dim)
  }

  ghost predicate WellFormed(w: World) {
    && (w.store.Some? ==> StateShaped(w.store.value) && w.store.value.dim == w.dim && w.store.value.ridge == w.ridge)
    && LessonsOfDim(w.flushed, w.dim)
    && forall p :: 0 <= p < |w.procs| ==> ProcessShaped(w, w.procs[p])
  }

  ghost function Persisted(w: World): (s: BanditState)
    requires WellFormed(w)
    ensures StateShaped(s) && s.dim == w.dim && s.ridge == w.ridge
  {
    if w.store.Some? then w.store.value else EmptyState(w.dim, w.ridge)
  }

  function NewProcess(w: World): Process {
    Process(EmptyState(w.dim, w.ridge), EmptyState(w.dim, w.ridge), [])
  }

  ghost function Step(w: World, e: Event): World
    requires WellFormed(w) && Enabled(w, e)
  {
    match e
    case Start => w.(procs := w.procs + [NewProcess(w)])
    case Learn(p, l) =>
      var q := w.procs[p];
      w.(procs := w.procs[p := q.(current := Taught(q.current, l), pending := q.pending + [l])],
         observed := w.observed + multiset{l})
    case Load(p) =>
      var q := w.procs[p];
      w.(procs := w.procs[p := if w.store.Some? then Process(w.store.value, w.store.value, [])
                               else q.(baseline := q.current, pending := [])],
         dropped := w.dropped + multiset(q.pending))
    case Flush(p) =>
      var q := w.procs[p];
      var merged := Merged(Persisted(w), q.current, q.baseline);
      w.(store := Some(merged), procs := w.procs[p := Process(merged, merged, [])], flushed := w.flushed + q.pending)
    case FlushFailed(p) => w
    case Restart(p) =>
      w.(procs := w.procs[p := NewProcess(w)], dropped := w.dropped + multiset(w.procs[p].pending))
  }

  ghost function AllPending(procs: seq<Process>): multiset<Lesson> {
    if procs == [] then multiset{}
    else AllPending(procs[..|procs| - 1]) + multiset(procs[|procs| - 1].pending)
  }

  ghost predicate DeltaExact(w: World, q: Process)
    requires ProcessShaped(w, q)
  {
    q.current == TaughtAll(q.baseline, q.pending)
  }

  /** Every lesson observed is flushed, pending or dropped, exactly once. */
  ghost predicate Conserved(w: World) {
    w.observed == multiset(w.flushed) + w.dropped + AllPending(w.procs)
  }

  /** The pooling invariant: deltas are sums of pending lessons, the store is the sum of flushed ones. */
  ghost predicate Pooled(w: World) {
    && WellFormed(w)
    && (forall p :: 0 <= p < |w.procs| ==> DeltaExact(w, w.procs[p]))
    && Persisted(w) == TaughtAll(EmptyState(w.dim, w.ridge), w.flushed)
    && Conserved(w)
  }

  function Initial(dim: nat, ridge: real): World {
    World(dim, ridge, None, [], [], multiset{}, multiset{})
  }

  lemma AddToBoth<T>(a: multiset<T>, m: multiset<T>, b: multiset<T>, q: multiset<T>, t: multiset<T>)
    requires a + m == b + q
    ensures (a + t) + m == (b + t) + q
  {
    assert (a + t) + m == (a + m) + t && (b + t) + q == (b + q) + t;
  }

  lemma {:induction false} PendingReplaced(procs: seq<Process>, p: nat, q: Process)
    requires p < |procs|
    ensures AllPending(procs[p := q]) + multiset(procs[p].pending) == AllPending(procs) + multiset(q.pending)
  {
    var n := |procs| - 1;
    if p < n {
      PendingReplaced(procs[..n], p, q);
      assert procs[p := q][..n] == procs[..n][p := q];
      AddToBoth(AllPending(procs[..n][p := q]), multiset(procs[p].pending), AllPending(procs[..n]),
                multiset(q.pending), multiset(procs[n].pending));
    } else {
      assert procs[p := q][..n] == procs[..n];
    }
  }

  lemma BalanceMoves<T>(total: multiset<T>, f: multiset<T>, d: multiset<T>, a: multiset<T>, a': multiset<T>,
                        m: multiset<T>)
    requires total == f + d + a && a' + m == a
    ensures total == (f + m) + d + a' && total == f + (d + m) + a'
  {
  }

  /** Emptying a process's pending lessons into the store or the floor keeps the balance. */
  lemma PendingMoves(w: World, p: nat, q: Process)
    requires Conserved(w) && p < |w.procs| && q.pending == []
    ensures w.observed == (multiset(w.flushed) + multiset(w.procs[p].pending)) + w.dropped + AllPending(w.procs[p := q])
    ensures w.observed == multiset(w.flushed) + (w.dropped + multiset(w.procs[p].pending)) + AllPending(w.procs[p := q])
  {
    PendingReplaced(w.procs, p, q);
    BalanceMoves(w.observed, multiset(w.flushed), w.dropped, AllPending(w.procs), AllPending(w.procs[p := q]),
                 multiset(w.procs[p].pending));
  }

  lemma BalanceGrows<T>(total: multiset<T>, f: multiset<T>, d: multiset<T>, a: multiset<T>, a': multiset<T>,
                        m: multiset<T>, l: T)
    requires total == f + d + a && a' + m == a + (m + multiset{l})
    ensures total + multiset{l} == f + d + a'
  {
    assert a' == a + multiset{l} by {
      assert (a' + m) - m == a' && (a + (m + multiset{l})) - m == a + multiset{l};
    }
  }

  lemma PendingGrows(w: World, p: nat, q: Process, l: Lesson)
    requires Conserved(w) && p < |w.procs| && q.pending == w.procs[p].pending + [l]
    ensures w.observed + multiset{l} == multiset(w.flushed) + w.dropped + AllPending(w.procs[p := q])
  {
    PendingReplaced(w.procs, p, q);
    assert multiset(q.pending) == multiset(w.procs[p].pending) + multiset{l};
    BalanceGrows(w.observed, multiset(w.flushed), w.dropped, AllPending(w.procs), AllPending(w.procs[p := q]),
                 multiset(w.procs[p].pending), l);
  }

  lemma TaughtOneMore(s: BanditState, lessons: seq<Lesson>, l: Lesson)
    requires StateShaped(s) && LessonsOfDim(lessons, s.dim) && |l.o.x| == s.dim
    ensures TaughtAll(s, lessons + [l]) == Taught(TaughtAll(s, lessons), l)
  {
    assert (lessons + [l])[..|lessons|] == lessons;
  }

  lemma FlushTeachesPending(w: World, q: Process)
    requires WellFormed(w) && ProcessShaped(w, q) && q.current == TaughtAll(q.baseline, q.pending)
    requires Persisted(w) == TaughtAll(EmptyState(w.dim, w.ridge), w.flushed)
    ensures Merged(Persisted(w), q.current, q.baseline) == TaughtAll(EmptyState(w.dim, w.ridge), w.flushed + q.pending)
  {
    MergeDelta(Persisted(w), q.baseline, q.pending);
    TaughtConcat(EmptyState(w.dim, w.ridge), w.flushed, q.pending);
  }

  /** The stored model is left as it was, or becomes the empty one taught these lessons. */
  ghost predicate StoreExact(w: World, w': World) {
    || (w'.store == w.store && w'.flushed == w.flushed)
    || (&& LessonsOfDim(w'.flushed, w.dim)
        && w'.store == Some(TaughtAll(EmptyState(w.dim, w.ridge), w'.flushed)))
  }

  lemma StoreKeepsShape(w: World, w': World)
    requires Pooled(w) && StoreExact(w, w') && w'.dim == w.dim && w'.ridge == w.ridge
    ensures w'.store.Some? ==>
              StateShaped(w'.store.value) && w'.store.value.dim == w'.dim && w'.store.value.ridge == w'.ridge
    ensures LessonsOfDim(w'.flushed, w'.dim)
  {
  }

  /** One process replaced, and the books still balanced: the rest of the invariant carries over. */
  lemma ReplacedKeepsPooled(w: World, w': World, p: nat, q: Process)
    requires Pooled(w) && p < |w.procs| && w'.procs == w.procs[p := q]
    requires w'.dim == w.dim && w'.ridge == w.ridge && StoreExact(w, w')
    requires ProcessShaped(w, q) && DeltaExact(w, q) && Conserved(w')
    ensures Pooled(w')
  {
    StoreKeepsShape(w, w');
    forall k | 0 <= k < |w'.procs| ensures ProcessShaped(w', w'.procs[k]) && DeltaExact(w', w'.procs[k]) {
      if k != p { assert ProcessShaped(w, w.procs[k]) && DeltaExact(w, w.procs[k]); }
    }
  }

  lemma LearntIsExact(w: World, q: Process, q': Process, l: Lesson)
    requires ProcessShaped(w, q) && DeltaExact(w, q) && |l.o.x| == w.dim
    requires q' == q.(current := Taught(q.current, l), pending := q.pending + [l])
    ensures ProcessShaped(w, q') && DeltaExact(w, q')
  {
    TaughtOneMore(q.baseline, q.pending, l);
  }

  lemma LearntIsConserved(w: World, w': World, p: nat, q: Process, l: Lesson)
    requires Conserved(w) && p < |w.procs| && q.pending == w.procs[p].pending + [l]
    requires w' == w.(procs := w.procs[p := q], observed := w.observed + multiset{l})
    ensures Conserved(w')
  {
    PendingGrows(w, p, q, l);
  }

  lemma LearnKeepsPooled(w: World, p: nat, l: Lesson)
    requires Pooled(w) && p < |w.procs| && |l.o.x| == w.dim
    ensures Pooled(Step(w, Learn(p, l)))
  {
    var q, w' := w.procs[p], Step(w, Learn(p, l));
    var q' := w'.procs[p];
    assert ProcessShaped(w, q) && DeltaExact(w, q);
    LearntIsExact(w, q, q', l);
    LearntIsConserved(w, w', p, q', l);
    ReplacedKeepsPooled(w, w', p, q');
  }

  lemma FlushKeepsPooled(w: World, p: nat)
    requires Pooled(w) && p < |w.procs|
    ensures Pooled(Step(w, Flush(p)))
  {
    var q := w.procs[p];
    assert ProcessShaped(w, q) && DeltaExact(w, q);
    FlushTeachesPending(w, q);
    var merged := Merged(Persisted(w), q.current, q.baseline);
    var q' := Process(merged, merged, []);
    PendingMoves(w, p, q');
    assert multiset(w.flushed + q.pending) == multiset(w.flushed) + multiset(q.pending);
    ReplacedKeepsPooled(w, Step(w, Flush(p)), p, q');
  }

  lemma StartKeepsPooled(w: World)
    requires Pooled(w)
    ensures Pooled(Step(w, Start))
  {
    assert Step(w, Start).procs[..|w.procs|] == w.procs;
  }

  lemma RestartKeepsPooled(w: World, p: nat)
    requires Pooled(w) && p < |w.procs|
    ensures Pooled(Step(w, Restart(p)))
  {
    PendingMoves(w, p, NewProcess(w));
    ReplacedKeepsPooled(w, Step(w, Restart(p)), p, NewProcess(w));
  }

  lemma LoadKeepsPooled(w: World, p: nat)
    requires Pooled(w) && p < |w.procs|
    ensures Pooled(Step(w, Load(p)))
  {
    var q := w.procs[p];
    assert ProcessShaped(w, q);
    var q' := if w.store.Some? then Process(w.store.value, w.store.value, [])
              else q.(baseline := q.current, pending := []);
    PendingMoves(w, p, q');
    ReplacedKeepsPooled(w, Step(w, Load(p)), p, q');
  }

  lemma StepKeepsPooled(w: World, e: Event)
    requires Pooled(w) && Enabled(w, e)
    ensures Pooled(Step(w, e))
  {
    match e
    case Start => StartKeepsPooled(w);
    case Learn(p, l) => LearnKeepsPooled(w, p, l);
    case Load(p) => LoadKeepsPooled(w, p);
    case Flush(p) => FlushKeepsPooled(w, p);
    case FlushFailed(p) =>
    case Restart(p) => RestartKeepsPooled(w, p);
  }

  /** w' is reachable from w by the events, each enabled in turn. */
  ghost predicate Runs(w: World, events: seq<Event>, w': World)
    requires Pooled(w)
    decreases |events|
  {
    if events == [] then w' == w
    else
      Enabled(w, events[0]) && (StepKeepsPooled(w, events[0]); Runs(Step(w, events[0]), events[1..], w'))
  }

  lemma {:induction false} RunKeepsPooled(w: World, events: seq<Event>, w': World)
    requires Pooled(w) && Runs(w, events, w')
    decreases |events|
    ensures Pooled(w') && w'.dim == w.dim && w'.ridge == w.ridge
  {
    if events != [] {
      StepKeepsPooled(w, events[0]);
      RunKeepsPooled(Step(w, events[0]), events[1..], w');
    }
  }

  lemma {:induction false} NothingPending(procs: seq<Process>)
    requires forall p :: 0 <= p < |procs| ==> procs[p].pending == []
    ensures AllPending(procs) == multiset{}
  {
    if procs != [] { NothingPending(procs[..|procs| - 1]); }
  }

  lemma InitialIsPooled(dim: nat, ridge: real)
    ensures Pooled(Initial(dim, ridge))
  {
  }

  /**
   * After any run, the stored model is the empty one plus each flushed lesson once; and once nothing is
   * pending or dropped, it is what a single model learns from all the lessons in any order.
   */
  lemma PoolingIsExact(dim: nat, ridge: real, events: seq<Event>, w: World, single: seq<Lesson>)
    requires Runs(Initial(dim, ridge), events, w)
    ensures Pooled(w) && w.dim == dim && w.ridge == ridge
    ensures Persisted(w) == TaughtAll(EmptyState(dim, ridge), w.flushed)
    ensures multiset(w.flushed) <= w.observed
    ensures && w.dropped == multiset{} && (forall p :: 0 <= p < |w.procs| ==> w.procs[p].pending == [])
            && multiset(single) == w.observed && LessonsOfDim(single, dim)
            ==> Persisted(w) == TaughtAll(EmptyState(dim, ridge), single)
  {
    InitialIsPooled(dim, ridge);
    RunKeepsPooled(Initial(dim, ridge), events, w);
    if && w.dropped == multiset{} && (forall p :: 0 <= p < |w.procs| ==> w.procs[p].pending == [])
       && multiset(single) == w.observed && LessonsOfDim(single, dim) {
      NothingPending(w.procs);
      TaughtPermuted(EmptyState(dim, ridge), w.flushed, single);
    }
  }

  // ----- a pooled model can always be restored -----

  /** The outcomes that taught one arm, in order. */
  ghost function OutcomesFor(lessons: seq<Lesson>, arm: Arm): seq<Observation> {
    if lessons == [] then []
    else
      var prior, l := OutcomesFor(lessons[..|lessons| - 1], arm), lessons[|lessons| - 1];
      if l.arm == arm then prior + [l.o] else prior
  }

  function ArmOf(s: BanditState, arm: Arm): ArmSnapshot {
    match arm
    case Retry => s.retry
    case CardUpdateComms => s.comms
  }

  lemma {:induction false} TaughtIsLearned(d: nat, ridge: real, lessons: seq<Lesson>, arm: Arm)
    requires ridge > 0.0 && LessonsOfDim(lessons, d)
    ensures AllOfDim(OutcomesFor(lessons, arm), d)
    ensures var seen := OutcomesFor(lessons, arm);
            Learned(ArmOf(TaughtAll(EmptyState(d, ridge), lessons), arm), MaintainedInverse(ridge, d, seen), ridge, d,
                    seen)
  {
    if lessons == [] {
      FreshIsLearned(d, ridge);
    } else {
      var rest, l := lessons[..|lessons| - 1], lessons[|lessons| - 1];
      TaughtIsLearned(d, ridge, rest, arm);
      if l.arm == arm {
        var seen := OutcomesFor(rest, arm);
        UpdateKeepsLearned(ArmOf(TaughtAll(EmptyState(d, ridge), rest), arm), MaintainedInverse(ridge, d, seen), ridge,
                           d, seen, l.o);
      }
    }
  }

  /**
   * Whatever pools, each stored arm is the ridge model of the outcomes flushed for it, and restoring it by
   * Gauss-Jordan gives the inverse that one process seeing those outcomes would have maintained.
   */
  lemma PooledModelRestores(dim: nat, ridge: real, events: seq<Event>, w: World, arm: Arm)
    requires ridge > 0.0 && Runs(Initial(dim, ridge), events, w)
    ensures Pooled(w) && w.dim == dim && AllOfDim(OutcomesFor(w.flushed, arm), dim)
    ensures var s, seen := ArmOf(Persisted(w), arm), OutcomesFor(w.flushed, arm);
            && s == ArmSnapshot(Gram(ridge, dim, seen), RewardSum(dim, seen), |seen|)
            && GaussJordan.Eliminated(s.a, dim, dim).inv == MaintainedInverse(ridge, dim, seen)
  {
    PoolingIsExact(dim, ridge, events, w, []);
    TaughtIsLearned(dim, ridge, w.flushed, arm);
    var seen := OutcomesFor(w.flushed, arm);
    RestoreReproducesInverse(ArmOf(Persisted(w), arm), MaintainedInverse(ridge, dim, seen), ridge, dim, seen);
  }

  // ----- swapping in a champion without resetting the baseline -----

  lemma MergeEqualArm(p: ArmSnapshot, c: ArmSnapshot, base: ArmSnapshot, d: nat)
    requires WellShaped(p, d) && WellShaped(c, d) && WellShaped(base, d)
    ensures MergedArm(p, c, base, d) == p <==> c == base
  {
    if c == base { MergeNothing(p, base, d); }
    if MergedArm(p, c, base, d) == p {
      forall i, j | 0 <= i < d && 0 <= j < d ensures c.a[i][j] == base.a[i][j] {
        assert MergedArm(p, c, base, d).a[i][j] == p.a[i][j];
      }
      forall i | 0 <= i < d ensures c.b[i] == base.b[i] {
        assert MergedArm(p, c, base, d).b[i] == p.b[i];
      }
      SameEntriesEqual(c, base, d);
    }
  }

  lemma ObservedCancels(s: ArmSnapshot, t: ArmSnapshot, o: Observation)
    requires WellShaped(s, |o.x|) && WellShaped(t, |o.x|) && Observed(s, o) == Observed(t, o)
    ensures s == t
  {
    var d := |o.x|;
    forall i, j | 0 <= i < d && 0 <= j < d ensures s.a[i][j] == t.a[i][j] {
      assert Observed(s, o).a[i][j] == Observed(t, o).a[i][j];
    }
    forall i | 0 <= i < d ensures s.b[i] == t.b[i] {
      assert Observed(s, o).b[i] == Observed(t, o).b[i];
    }
    SameEntriesEqual(s, t, d);
  }

  lemma {:induction false} TaughtCancels(s: BanditState, t: BanditState, lessons: seq<Lesson>)
    requires StateShaped(s) && StateShaped(t) && s.dim == t.dim && LessonsOfDim(lessons, s.dim)
    requires TaughtAll(s, lessons) == TaughtAll(t, lessons)
    ensures s.retry == t.retry && s.comms == t.comms
  {
    if lessons != [] {
      var rest, l := lessons[..|lessons| - 1], lessons[|lessons| - 1];
      var s', t' := TaughtAll(s, rest), TaughtAll(t, rest);
      match l.arm {
        case Retry => ObservedCancels(s'.retry, t'.retry, l.o);
        case CardUpdateComms => ObservedCancels(s'.comms, t'.comms, l.o);
      }
      TaughtCancels(s, t, rest);
    }
  }

  /**
   * A rebuilt policy flushed against the old baseline keeps the pool exact precisely when that baseline
   * had learned nothing: otherwise the merge takes the baseline's lessons back out of the store.
   */
  lemma ChampionSwapExact(persisted: BanditState, baseline: BanditState, lessons: seq<Lesson>, d: nat, ridge: real)
    requires StateShaped(persisted) && StateShaped(baseline) && persisted.dim == baseline.dim == d
    requires LessonsOfDim(lessons, d)
    ensures Merged(persisted, TaughtAll(EmptyState(d, ridge), lessons), baseline) == TaughtAll(persisted, lessons)
            <==> baseline.retry == FreshArm(d, ridge) && baseline.comms == FreshArm(d, ridge)
  {
    var empty := EmptyState(d, ridge);
    MergeTeaches(persisted, empty, baseline, lessons);
    MergeEqualArm(persisted.retry, empty.retry, baseline.retry, d);
    MergeEqualArm(persisted.comms, empty.comms, baseline.comms, d);
    if TaughtAll(Merged(persisted, empty, baseline), lessons) == TaughtAll(persisted, lessons) {
      TaughtCancels(Merged(persisted, empty, baseline), persisted, lessons);
    }
  }

  /** The world after process p swaps in a champion: its policy is new, its baseline is not. */
  function Swapped(w: World, p: nat): World
    requires p < |w.procs|
  {
    w.(procs := w.procs[p := w.procs[p].(current := EmptyState(w.dim, w.ridge), pending := [])],
       dropped := w.dropped + multiset(w.procs[p].pending))
  }

  lemma SwapKeepsShape(w: World, p: nat)
    requires WellFormed(w) && p < |w.procs|
    ensures WellFormed(Swapped(w, p))
  {
    forall k | 0 <= k < |w.procs| ensures ProcessShaped(Swapped(w, p), Swapped(w, p).procs[k]) {
      assert ProcessShaped(w, w.procs[k]);
    }
  }

  /** A swap keeps the pool exact precisely when the process still has the empty baseline. */
  lemma SwapKeepsPooledIff(w: World, p: nat)
    requires Pooled(w) && p < |w.procs|
    ensures WellFormed(Swapped(w, p))
    ensures Pooled(Swapped(w, p)) <==> w.procs[p].baseline == EmptyState(w.dim, w.ridge)
  {
    var q, w' := w.procs[p], Swapped(w, p);
    var q' := q.(current := EmptyState(w.dim, w.ridge), pending := []);
    SwapKeepsShape(w, p);
    assert ProcessShaped(w, q) && ProcessShaped(w', q') && w'.procs[p] == q';
    if q.baseline == EmptyState(w.dim, w.ridge) {
      PendingMoves(w, p, q');
      ReplacedKeepsPooled(w, w', p, q');
    } else {
      assert !DeltaExact(w', q');
    }
  }

  /** Start, learn one lesson, flush it. */
  function OneFlush(l: Lesson): seq<Event> {
    [Start, Learn(0, l), Flush(0)]
  }

  function AfterOneFlush(ridge: real, l: Lesson): World {
    var taught := Taught(EmptyState(|l.o.x|, ridge), l);
    World(|l.o.x|, ridge, Some(taught), [Process(taught, taught, [])], [l], multiset{}, multiset{l})
  }

  function AfterOneLesson(ridge: real, l: Lesson): World {
    var empty := EmptyState(|l.o.x|, ridge);
    World(|l.o.x|, ridge, None, [Process(Taught(empty, l), empty, [l])], [], multiset{}, multiset{l})
  }

  function OneProcess(d: nat, ridge: real): World {
    World(d, ridge, None, [Process(EmptyState(d, ridge), EmptyState(d, ridge), [])], [], multiset{}, multiset{})
  }

  lemma OneProcessReached(d: nat, ridge: real)
    ensures Pooled(Initial(d, ridge)) && Pooled(OneProcess(d, ridge))
    ensures Step(Initial(d, ridge), Start) == OneProcess(d, ridge)
  {
    InitialIsPooled(d, ridge);
    StartKeepsPooled(Initial(d, ridge));
    assert Step(Initial(d, ridge), Start).procs == OneProcess(d, ridge).procs;
  }

  lemma OneLessonStep(ridge: real, l: Lesson)
    requires Pooled(OneProcess(|l.o.x|, ridge))
    ensures Step(OneProcess(|l.o.x|, ridge), Learn(0, l)) == AfterOneLesson(ridge, l)
            && Pooled(AfterOneLesson(ridge, l))
  {
    var w := OneProcess(|l.o.x|, ridge);
    LearnKeepsPooled(w, 0, l);
    assert Step(w, Learn(0, l)).procs == AfterOneLesson(ridge, l).procs;
  }

  lemma OneFlushStep(ridge: real, l: Lesson)
    requires Pooled(AfterOneLesson(ridge, l))
    ensures Step(AfterOneLesson(ridge, l), Flush(0)) == AfterOneFlush(ridge, l) && Pooled(AfterOneFlush(ridge, l))
  {
    var w, empty, d := AfterOneLesson(ridge, l), EmptyState(|l.o.x|, ridge), |l.o.x|;
    var taught := Taught(empty, l);
    FlushKeepsPooled(w, 0);
    MergeOne(empty.retry, empty.retry, empty.retry, l.o);
    MergeOne(empty.comms, empty.comms, empty.comms, l.o);
    MergeNothing(empty.retry, empty.retry, d);
    MergeNothing(empty.comms, empty.comms, d);
    assert Merged(empty, taught, empty) == taught;
    assert Step(w, Flush(0)).procs == [Process(taught, taught, [])];
    assert [] + [l] == [l];
  }

  lemma OneStep(w: World, e: Event)
    requires Pooled(w) && Enabled(w, e) && Pooled(Step(w, e))
    ensures Runs(w, [e], Step(w, e))
  {
    assert [e][1..] == [];
  }

  lemma StepFirst(w: World, e: Event, rest: seq<Event>, events: seq<Event>, w': World)
    requires Pooled(w) && Enabled(w, e) && Pooled(Step(w, e)) && Runs(Step(w, e), rest, w')
    requires events != [] && events[0] == e && events[1..] == rest
    ensures Runs(w, events, w')
  {
  }

  lemma OneFlushReaches(ridge: real, l: Lesson)
    ensures Pooled(Initial(|l.o.x|, ridge))
    ensures Runs(Initial(|l.o.x|, ridge), OneFlush(l), AfterOneFlush(ridge, l))
    ensures Pooled(AfterOneFlush(ridge, l))
  {
    var w0, w1 := Initial(|l.o.x|, ridge), OneProcess(|l.o.x|, ridge);
    var w2, w3 := AfterOneLesson(ridge, l), AfterOneFlush(ridge, l);
    OneProcessReached(|l.o.x|, ridge);
    OneLessonStep(ridge, l);
    OneFlushStep(ridge, l);
    OneStep(w2, Flush(0));
    var lastTwo, all := OneFlush(l)[1..], OneFlush(l);
    StepFirst(w1, Learn(0, l), [Flush(0)], lastTwo, w3);
    StepFirst(w0, Start, lastTwo, all, w3);
  }

  /** In that reachable world a swap breaks the pool: the next flush takes the lesson back out of the store. */
  lemma LateSwapUnlearns(ridge: real, l: Lesson)
    ensures Runs(Initial(|l.o.x|, ridge), OneFlush(l), AfterOneFlush(ridge, l))
    ensures var w := Swapped(AfterOneFlush(ridge, l), 0);
            && WellFormed(w) && !Pooled(w)
            && Step(w, Flush(0)).flushed == [l]
            && Step(w, Flush(0)).store == Some(EmptyState(|l.o.x|, ridge))
  {
    OneFlushReaches(ridge, l);
    var w, d := AfterOneFlush(ridge, l), |l.o.x|;
    var taught, empty := Taught(EmptyState(|l.o.x|, ridge), l), EmptyState(|l.o.x|, ridge);
    assert taught.retry.n + taught.comms.n == 1;
    SwapKeepsPooledIff(w, 0);
    SameEntriesEqual(MergedArm(taught.retry, empty.retry, taught.retry, d), empty.retry, d);
    SameEntriesEqual(MergedArm(taught.comms, empty.comms, taught.comms, d), empty.comms, d);
  }

  lemma EmptyLoadKeepsLesson(ridge: real, l: Lesson)
    requires Pooled(AfterOneLesson(ridge, l)) && Pooled(Step(AfterOneLesson(ridge, l), Load(0)))
    ensures var w := Step(AfterOneLesson(ridge, l), Load(0));
            w.store == None && w.flushed == [] && !Pooled(Swapped(w, 0))
  {
    var w, empty := Step(AfterOneLesson(ridge, l), Load(0)), EmptyState(|l.o.x|, ridge);
    var taught := Taught(empty, l);
    assert w.procs[0].baseline == taught;
    assert taught.retry.n + taught.comms.n == 1;
    SwapKeepsPooledIff(w, 0);
  }

  function LearnThenLoad(l: Lesson): seq<Event> {
    [Start, Learn(0, l), Load(0)]
  }

  /**
   * Loading from an empty store makes the learned policy the baseline: nothing was loaded or flushed, and a swap
   * breaks the pool all the same.
   */
  lemma SwapAfterEmptyLoad(ridge: real, l: Lesson)
    ensures Pooled(Initial(|l.o.x|, ridge)) && Pooled(AfterOneLesson(ridge, l))
    ensures var w := Step(AfterOneLesson(ridge, l), Load(0));
            && Runs(Initial(|l.o.x|, ridge), LearnThenLoad(l), w) && Pooled(w)
            && w.store == None && w.flushed == [] && !Pooled(Swapped(w, 0))
  {
    var w0, w1, w2 := Initial(|l.o.x|, ridge), OneProcess(|l.o.x|, ridge), AfterOneLesson(ridge, l);
    OneProcessReached(|l.o.x|, ridge);
    OneLessonStep(ridge, l);
    LoadKeepsPooled(w2, 0);
    OneStep(w2, Load(0));
    var lastTwo, all := LearnThenLoad(l)[1..], LearnThenLoad(l);
    StepFirst(w1, Learn(0, l), [Load(0)], lastTwo, Step(w2, Load(0)));
    StepFirst(w0, Start, lastTwo, all, Step(w2, Load(0)));
    EmptyLoadKeepsLesson(ridge, l);
  }

  // ----- the service's handlers are these steps -----

  /** s is what process p of the world keeps, with the shared store. */
  ghost predicate Represents(w: World, p: nat, s: ServiceState) {
    && WellFormed(w) && p < |w.procs|
    && s.saved == w.store && s.bandit == w.procs[p].current && s.baseline == w.procs[p].baseline
    && s.sinceFlush < FLUSH_EVERY
  }

  lemma LoadIsLoad(w: World, p: nat, s: ServiceState)
    requires Represents(w, p, s) && Pooled(w)
    ensures Pooled(Step(w, Load(p))) && Represents(Step(w, Load(p)), p, Loaded(s))
  {
    assert ProcessShaped(w, w.procs[p]);
    StepKeepsPooled(w, Load(p));
  }

  function FlushEvent(p: nat, storeUp: bool): Event {
    if storeUp then Flush(p) else FlushFailed(p)
  }

  lemma FlushIsFlush(w: World, p: nat, s: ServiceState, storeUp: bool)
    requires Represents(w, p, s) && Pooled(w)
    ensures ServiceShaped(s, w.dim)
    ensures Pooled(Step(w, FlushEvent(p, storeUp)))
    ensures Represents(Step(w, FlushEvent(p, storeUp)), p, Flushed(s, w.ridge, storeUp))
  {
    assert ProcessShaped(w, w.procs[p]);
    StepKeepsPooled(w, FlushEvent(p, storeUp));
  }

  lemma LearnIsTaught(w: World, p: nat, s: ServiceState, l: Lesson, n: nat)
    requires Represents(w, p, s) && Pooled(w) && |l.o.x| == w.dim && n < FLUSH_EVERY
    ensures ServiceShaped(s, w.dim) && Pooled(Step(w, Learn(p, l)))
    ensures Represents(Step(w, Learn(p, l)), p, s.(bandit := Taught(s.bandit, l), sinceFlush := n))
  {
    assert ProcessShaped(w, w.procs[p]);
    StepKeepsPooled(w, Learn(p, l));
  }

  /** The world after one handled outcome: a learning step, and a flush when it is the 25th. */
  ghost function Learnt(w: World, p: nat, s: ServiceState, l: Lesson, storeUp: bool): World
    requires Represents(w, p, s) && Pooled(w) && |l.o.x| == w.dim
  {
    LearnIsTaught(w, p, s, l, 0);
    var next := Step(w, Learn(p, l));
    if s.sinceFlush + 1 >= FLUSH_EVERY then Step(next, FlushEvent(p, storeUp)) else next
  }

  /** Handling an outcome is Learn, then Flush or FlushFailed on every 25th. */
  lemma LearnIsLearn(w: World, p: nat, s: ServiceState, l: Lesson, storeUp: bool)
    requires Represents(w, p, s) && Pooled(w) && |l.o.x| == w.dim
    ensures ServiceShaped(s, w.dim) && Pooled(Learnt(w, p, s, l, storeUp))
    ensures Represents(Learnt(w, p, s, l, storeUp), p, LearnedOnline(s, w.ridge, Act(l.arm), l.o, storeUp))
  {
    var n := if s.sinceFlush + 1 >= FLUSH_EVERY then 0 else s.sinceFlush + 1;
    var taught := s.(bandit := Taught(s.bandit, l), sinceFlush := n);
    LearnIsTaught(w, p, s, l, n);
    assert l == Lesson(Act(l.arm).arm, l.o);
    if s.sinceFlush + 1 >= FLUSH_EVERY {
      FlushIsFlush(Step(w, Learn(p, l)), p, taught, storeUp);
    }
  }

  lemma LearningGrowsBacklog(w: World, p: nat, l: Lesson)
    requires WellFormed(w) && p < |w.procs| && |l.o.x| == w.dim
    ensures Step(w, Learn(p, l)).procs[p].pending == w.procs[p].pending + [l]
  {
  }

  lemma FlushEmptiesBacklog(w: World, p: nat, storeUp: bool)
    requires WellFormed(w) && p < |w.procs|
    ensures Step(w, FlushEvent(p, storeUp)).procs[p].pending == if storeUp then [] else w.procs[p].pending
  {
  }

  /** The backlog of a process is emptied by every 25th outcome the store is up for, and grows by one otherwise. */
  lemma BacklogAfterLearning(w: World, p: nat, s: ServiceState, l: Lesson, storeUp: bool)
    requires Represents(w, p, s) && Pooled(w) && |l.o.x| == w.dim
    ensures Learnt(w, p, s, l, storeUp).procs[p].pending
            == if s.sinceFlush + 1 >= FLUSH_EVERY && storeUp then [] else w.procs[p].pending + [l]
  {
    var next := Step(w, Learn(p, l));
    assert WellFormed(next) by { LearnIsTaught(w, p, s, l, 0); }
    LearningGrowsBacklog(w, p, l);
    FlushEmptiesBacklog(next, p, storeUp);
  }

  lemma OneOutcomeKeepsShort(w: World, p: nat, s: ServiceState, l: Lesson)
    requires Represents(w, p, s) && Pooled(w) && |l.o.x| == w.dim && |w.procs[p].pending| <= s.sinceFlush
    ensures ServiceShaped(s, w.dim)
    ensures |Learnt(w, p, s, l, true).procs[p].pending|
            <= LearnedOnline(s, w.ridge, Act(l.arm), l.o, true).sinceFlush
  {
    LearnIsTaught(w, p, s, l, 0);
    BacklogAfterLearning(w, p, s, l, true);
  }

  /** What can happen around process p: its own handlers, and any event of any other process. */
  datatype Happening = Loads | Learns(l: Lesson) | Elsewhere(e: Event)

  ghost predicate CanHappen(w: World, p: nat, h: Happening) {
    match h
    case Loads => true
    case Learns(l) => |l.o.x| == w.dim
    case Elsewhere(e) => Enabled(w, e) && (e.Start? || e.p != p)
  }

  /** The world and the service of p after one happening, with the store up. */
  ghost function Happened(w: World, p: nat, s: ServiceState, h: Happening): (World, ServiceState)
    requires Represents(w, p, s) && Pooled(w) && CanHappen(w, p, h)
  {
    match h
    case Loads => (Step(w, Load(p)), Loaded(s))
    case Learns(l) =>
      LearnIsLearn(w, p, s, l, true);
      (Learnt(w, p, s, l, true), LearnedOnline(s, w.ridge, Act(l.arm), l.o, true))
    case Elsewhere(e) => (Step(w, e), s.(saved := Step(w, e).store))
  }

  /** No more lessons pending than outcomes counted since the last flush. */
  ghost predicate ShortBacklog(w: World, p: nat, s: ServiceState) {
    Represents(w, p, s) && Pooled(w) && |w.procs[p].pending| <= s.sinceFlush
  }

  lemma ElsewhereKeepsProcess(w: World, p: nat, s: ServiceState, e: Event)
    requires Represents(w, p, s) && Pooled(w) && Enabled(w, e) && (e.Start? || e.p != p)
    ensures Pooled(Step(w, e)) && Represents(Step(w, e), p, s.(saved := Step(w, e).store))
    ensures Step(w, e).procs[p] == w.procs[p]
  {
    StepKeepsPooled(w, e);
  }

  lemma HappeningKeepsShort(w: World, p: nat, s: ServiceState, h: Happening)
    requires ShortBacklog(w, p, s) && CanHappen(w, p, h)
    ensures var (w', s') := Happened(w, p, s, h); ShortBacklog(w', p, s')
  {
    match h
    case Loads => LoadIsLoad(w, p, s);
    case Learns(l) =>
      LearnIsLearn(w, p, s, l, true);
      OneOutcomeKeepsShort(w, p, s, l);
    case Elsewhere(e) => ElsewhereKeepsProcess(w, p, s, e);
  }

  /** From w and s, these happenings lead to w' and s'. */
  ghost predicate Unfolds(w: World, p: nat, s: ServiceState, hs: seq<Happening>, w': World, s': ServiceState)
    requires ShortBacklog(w, p, s)
    decreases |hs|
  {
    if hs == [] then w' == w && s' == s
    else
      && CanHappen(w, p, hs[0])
      && (HappeningKeepsShort(w, p, s, hs[0]);
          var (next, t) := Happened(w, p, s, hs[0]);
          Unfolds(next, p, t, hs[1..], w', s'))
  }

  /**
   * Over any run of its handlers, between any events of the other processes, a process whose store stays up
   * never holds 25 unflushed lessons.
   */
  lemma {:induction false} BacklogStaysShort(w: World, p: nat, s: ServiceState, hs: seq<Happening>, w': World,
                                             s': ServiceState)
    requires ShortBacklog(w, p, s) && Unfolds(w, p, s, hs, w', s')
    ensures ShortBacklog(w', p, s') && |w'.procs[p].pending| <= s'.sinceFlush < FLUSH_EVERY
    decreases |hs|
  {
    if hs != [] {
      HappeningKeepsShort(w, p, s, hs[0]);
      var (next, t) := Happened(w, p, s, hs[0]);
      BacklogStaysShort(next, p, t, hs[1..], w', s');
    }
  }

  /** A process that has just started has no backlog. */
  lemma FreshBacklogShort(w: World)
    requires Pooled(w)
    ensures var p, empty := |w.procs|, EmptyState(w.dim, w.ridge);
            ShortBacklog(Step(w, Start), p, ServiceState(w.store, empty, empty, 0))
  {
    StepKeepsPooled(w, Start);
  }

  lemma SwapIsSwap(w: World, p: nat, s: ServiceState)
    requires Represents(w, p, s)
    ensures Represents(Swapped(w, p), p, WithChampion(s, w.ridge))
  {
    assert ProcessShaped(w, w.procs[p]);
    SwapKeepsShape(w, p);
  }

  // ----- a flush that is not alone -----

  lemma {:induction false} LessonsCounted(s: BanditState, lessons: seq<Lesson>)
    requires StateShaped(s) && LessonsOfDim(lessons, s.dim)
    ensures var t := TaughtAll(s, lessons); t.retry.n + t.comms.n == s.retry.n + s.comms.n + |lessons|
  {
    if lessons != [] { LessonsCounted(s, lessons[..|lessons| - 1]); }
  }

  /**
   * The store is read, merged and saved without a lock. Others' lessons saved in between are overwritten, and
   * the process's own lessons learned in between are lost on restore: exact precisely when there were none.
   */
  lemma OverlappedFlushExact(persisted: BanditState, baseline: BanditState, pending: seq<Lesson>,
                             theirs: seq<Lesson>, mine: seq<Lesson>)
    requires StateShaped(persisted) && StateShaped(baseline) && persisted.dim == baseline.dim
    requires LessonsOfDim(pending, persisted.dim) && LessonsOfDim(theirs, persisted.dim)
    requires LessonsOfDim(mine, persisted.dim)
    ensures var saved := Merged(persisted, TaughtAll(baseline, pending), baseline);
            && (saved == TaughtAll(TaughtAll(persisted, theirs), pending) <==> theirs == [])
            && (saved == TaughtAll(saved, mine) <==> mine == [])
  {
    var saved := Merged(persisted, TaughtAll(baseline, pending), baseline);
    MergeDelta(persisted, baseline, pending);
    LessonsCounted(persisted, pending);
    LessonsCounted(persisted, theirs);
    LessonsCounted(TaughtAll(persisted, theirs), pending);
    LessonsCounted(saved, mine);
  }
}
