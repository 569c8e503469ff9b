/** Any interleaving of any number of appenders, without the advisory lock. */
module AppendProtocol {
  import opened Ledger
  import opened LedgerRepository

  datatype Phase = Reading | Inserting(seqNo: int, prevHash: string) | Returned(entry: LedgerEntry) | GaveUp

  /** startRows is history: the size of the table when the call began. */
  datatype Call = Call(input: Input, phase: Phase, attempt: nat, startRows: nat)

  datatype World = World(rows: Rows, calls: seq<Call>)

  datatype Event = Begin(input: Input) | ReadHead(c: nat) | TryInsert(c: nat)

  ghost predicate Enabled(w: World, e: Event) {
    match e
    case Begin(_) => true
    case ReadHead(c) => c < |w.calls| && w.calls[c].phase.Reading?
    case TryInsert(c) => c < |w.calls| && w.calls[c].phase.Inserting?
  }

  function AfterCollision(q: Call): Call {
    q.(attempt := q.attempt + 1, phase := if q.attempt + 1 < MAX_APPEND_RETRIES then Reading else GaveUp)
  }

  ghost function Step(link: Linker, w: World, e: Event): World
    requires Enabled(w, e)
  {
    match e
    case Begin(input) => w.(calls := w.calls + [Call(input, Reading, 0, |w.rows|)])
    case ReadHead(c) => w.(calls := w.calls[c := w.calls[c].(phase := Inserting(|w.rows|, Head(w.rows)))])
    case TryInsert(c) =>
      var q := w.calls[c];
      if SeqTaken(w.rows, q.phase.seqNo) then w.(calls := w.calls[c := AfterCollision(q)])
      else
        var row := EntryFor(link, q.input, q.phase.seqNo, q.phase.prevHash);
        World(w.rows + [row], w.calls[c := q.(phase := Returned(row))])
  }

  ghost predicate RowOf(rows: Rows, q: Call, entry: LedgerEntry) {
    && 0 <= entry.data.seqNo < |rows| && rows[entry.data.seqNo] == entry
    && entry.data == EntryData(entry.data.seqNo, q.input.merchantId, q.input.kind, q.input.occurredAt, q.input.detail)
  }

  ghost predicate CallOk(rows: Rows, q: Call) {
    match q.phase
    case Reading => q.attempt < MAX_APPEND_RETRIES && q.startRows + q.attempt <= |rows|
    case Inserting(n, prevHash) =>
      q.attempt < MAX_APPEND_RETRIES && q.startRows + q.attempt <= n <= |rows| && prevHash == Head(rows[..n])
    case Returned(entry) => RowOf(rows, q, entry)
    case GaveUp => q.startRows + MAX_APPEND_RETRIES <= |rows|
  }

  ghost function ReturnedCount(calls: seq<Call>): nat {
    if calls == [] then 0
    else ReturnedCount(calls[..|calls| - 1]) + if calls[|calls| - 1].phase.Returned? then 1 else 0
  }

  /** Call c has returned, with the row numbered i. */
  ghost predicate Owns(w: World, c: int, i: int) {
    0 <= c < |w.calls| && w.calls[c].phase.Returned? && w.calls[c].phase.entry.data.seqNo == i
  }

  ghost predicate HasOwner(w: World, i: int) {
    exists c :: Owns(w, c, i)
  }

  /** The rows from base on and the returned calls correspond one to one. */
  ghost predicate OneOwnerEach(w: World, base: nat) {
    && (forall i :: base <= i < |w.rows| ==> HasOwner(w, i))
    && (forall c, d, i :: Owns(w, c, i) && Owns(w, d, i) ==> c == d)
    && (forall c, i :: Owns(w, c, i) ==> base <= i < |w.rows|)
  }

  /** The chain verifies, every call is where it should be, and each row from base on has one returned call. */
  ghost predicate Safe(link: Linker, w: World, base: nat) {
    && Chained(link, w.rows) && (forall c :: 0 <= c < |w.calls| ==> CallOk(w.rows, w.calls[c]))
    && OneOwnerEach(w, base) && |w.rows| == base + ReturnedCount(w.calls)
  }

  lemma {:induction false} ReturnedReplaced(calls: seq<Call>, c: nat, q: Call)
    requires c < |calls|
    ensures ReturnedCount(calls[c := q]) + (if calls[c].phase.Returned? then 1 else 0)
            == ReturnedCount(calls) + (if q.phase.Returned? then 1 else 0)
  {
    var n := |calls| - 1;
    if c < n {
      ReturnedReplaced(calls[..n], c, q);
      assert calls[c := q][..n] == calls[..n][c := q];
    } else {
      assert calls[c := q][..n] == calls[..n];
    }
  }

  lemma CallStaysOk(rows: Rows, rows': Rows, q: Call)
    requires CallOk(rows, q) && rows <= rows'
    ensures CallOk(rows', q)
  {
    if q.phase.Inserting? { assert rows'[..q.phase.seqNo] == rows[..q.phase.seqNo]; }
  }

  lemma HeadReadIsOk(link: Linker, w: World, c: nat)
    requires Enabled(w, ReadHead(c)) && CallOk(w.rows, w.calls[c])
    ensures CallOk(w.rows, Step(link, w, ReadHead(c)).calls[c])
  {
    assert w.rows[..|w.rows|] == w.rows;
  }

  /** Calls that had not returned and still have not own nothing, before or after. */
  lemma UnreturnedOwnNothing(w: World, w': World, base: nat)
    requires OneOwnerEach(w, base) && w'.rows == w.rows
    requires forall c, i :: Owns(w', c, i) <==> Owns(w, c, i)
    ensures OneOwnerEach(w', base)
  {
    forall i | base <= i < |w'.rows| ensures HasOwner(w', i) {
      assert HasOwner(w, i);
      var c :| Owns(w, c, i);
      assert Owns(w', c, i);
    }
  }

  /** The call that commits becomes the owner of the new row, and every other owner stays. */
  lemma CommitOwnsNewRow(w: World, w': World, c: nat, base: nat)
    requires OneOwnerEach(w, base) && base <= |w.rows| && |w'.rows| == |w.rows| + 1
    requires forall d, i :: Owns(w', d, i) <==> Owns(w, d, i) || (d == c && i == |w.rows|)
    requires forall i :: !Owns(w, c, i)
    ensures OneOwnerEach(w', base)
  {
    forall i | base <= i < |w'.rows| ensures HasOwner(w', i) {
      if i < |w.rows| {
        assert HasOwner(w, i);
        var d :| Owns(w, d, i);
        assert Owns(w', d, i);
      } else {
        assert Owns(w', c, i);
      }
    }
  }

  lemma CollisionKeepsSafe(link: Linker, w: World, c: nat, base: nat)
    requires Safe(link, w, base) && Enabled(w, TryInsert(c)) && SeqTaken(w.rows, w.calls[c].phase.seqNo)
    ensures Safe(link, Step(link, w, TryInsert(c)), base) && Step(link, w, TryInsert(c)).rows == w.rows
  {
    assert CallOk(w.rows, w.calls[c]);
    ChainedSeqNumbers(link, w.rows);
    ReturnedReplaced(w.calls, c, AfterCollision(w.calls[c]));
    UnreturnedOwnNothing(w, Step(link, w, TryInsert(c)), base);
  }

  /** A free seq is the next one, read with the head of the chain. */
  lemma CommittedRow(link: Linker, w: World, c: nat)
    requires Chained(link, w.rows) && Enabled(w, TryInsert(c)) && CallOk(w.rows, w.calls[c])
    requires !SeqTaken(w.rows, w.calls[c].phase.seqNo)
    ensures var row := NextEntry(link, w.rows, w.calls[c].input);
            && Step(link, w, TryInsert(c)) == World(w.rows + [row], w.calls[c := w.calls[c].(phase := Returned(row))])
            && Chained(link, w.rows + [row]) && RowOf(w.rows + [row], w.calls[c], row)
  {
    ChainedSeqNumbers(link, w.rows);
    assert w.rows[..|w.rows|] == w.rows;
    AppendKeepsChained(link, w.rows, w.calls[c].input);
  }

  lemma CallsStayOk(rows: Rows, row: LedgerEntry, calls: seq<Call>, c: nat, calls': seq<Call>)
    requires c < |calls| == |calls'| && calls' == calls[c := calls'[c]]
    requires (forall k :: 0 <= k < |calls| ==> CallOk(rows, calls[k])) && CallOk(rows + [row], calls'[c])
    ensures forall k :: 0 <= k < |calls'| ==> CallOk(rows + [row], calls'[k])
  {
    forall k | 0 <= k < |calls'| ensures CallOk(rows + [row], calls'[k]) {
      if k != c { CallStaysOk(rows, rows + [row], calls[k]); }
    }
  }

  lemma CommitKeepsSafe(link: Linker, w: World, c: nat, base: nat)
    requires Safe(link, w, base) && Enabled(w, TryInsert(c)) && !SeqTaken(w.rows, w.calls[c].phase.seqNo)
    ensures Safe(link, Step(link, w, TryInsert(c)), base)
    ensures w.rows <= Step(link, w, TryInsert(c)).rows && |Step(link, w, TryInsert(c)).rows| == |w.rows| + 1
  {
    var w' := Step(link, w, TryInsert(c));
    assert CallOk(w.rows, w.calls[c]);
    CommittedRow(link, w, c);
    ReturnedReplaced(w.calls, c, w'.calls[c]);
    CallsStayOk(w.rows, w'.rows[|w.rows|], w.calls, c, w'.calls);
    assert OneOwnerEach(w', base) by { CommitOwnsNewRow(w, w', c, base); }
  }

  /** A step keeps the invariant, changes no row, and commits at most one. */
  lemma StepKeepsSafe(link: Linker, w: World, e: Event, base: nat)
    requires Safe(link, w, base) && Enabled(w, e)
    ensures Safe(link, Step(link, w, e), base)
    ensures w.rows <= Step(link, w, e).rows && |Step(link, w, e).rows| <= |w.rows| + 1
  {
    match e
    case Begin(input) =>
      assert Step(link, w, e).calls[..|w.calls|] == w.calls;
      UnreturnedOwnNothing(w, Step(link, w, e), base);
    case ReadHead(c) =>
      HeadReadIsOk(link, w, c);
      ReturnedReplaced(w.calls, c, Step(link, w, e).calls[c]);
      UnreturnedOwnNothing(w, Step(link, w, e), base);
    case TryInsert(c) =>
      if SeqTaken(w.rows, w.calls[c].phase.seqNo) {
        CollisionKeepsSafe(link, w, c, base);
      } else {
        CommitKeepsSafe(link, w, c, base);
      }
  }

  /** w' is reachable from w by these events. */
  ghost predicate Runs(link: Linker, w: World, events: seq<Event>, w': World)
    decreases |events|
  {
    if events == [] then w' == w
    else Enabled(w, events[0]) && Runs(link, Step(link, w, events[0]), events[1..], w')
  }

  /**
   * Over any run: the rows verify, none is changed, a returned entry stays at its seq, the new rows and
   * the returned calls correspond one to one, and a call that gave up saw eight rows committed since it began.
   */
  lemma {:induction false} RunIsSafe(link: Linker, w: World, events: seq<Event>, w': World, base: nat)
    requires Safe(link, w, base) && Runs(link, w, events, w')
    ensures Safe(link, w', base) && Chained(link, w'.rows) && w.rows <= w'.rows
    ensures |w'.rows| == base + ReturnedCount(w'.calls)
    ensures forall i :: base <= i < |w'.rows| ==> HasOwner(w', i)
    ensures forall c, i :: Owns(w', c, i) ==> base <= i < |w'.rows|
    ensures forall c, d, i :: Owns(w', c, i) && Owns(w', d, i) ==> c == d
    ensures forall c :: 0 <= c < |w'.calls| && w'.calls[c].phase.Returned? ==>
              RowOf(w'.rows, w'.calls[c], w'.calls[c].phase.entry)
    ensures forall c :: 0 <= c < |w'.calls| && w'.calls[c].phase.GaveUp? ==>
              w'.calls[c].startRows + MAX_APPEND_RETRIES <= |w'.rows|
    decreases |events|
  {
    if events == [] {
      assert forall c :: 0 <= c < |w'.calls| ==> CallOk(w'.rows, w'.calls[c]);
    } else {
      StepKeepsSafe(link, w, events[0], base);
      RunIsSafe(link, Step(link, w, events[0]), events[1..], w', base);
    }
  }

  /** Any rows that verify are a safe start for any run. */
  lemma VerifiedStartIsSafe(link: Linker, rows: Rows)
    requires Chained(link, rows)
    ensures Safe(link, World(rows, []), |rows|)
  {
  }

  // ----- the repository's transaction is a run of these steps -----

  lemma {:induction false} RunsConcat(link: Linker, w: World, first: seq<Event>, second: seq<Event>, mid: World,
                                      w': World)
    requires Runs(link, w, first, mid) && Runs(link, mid, second, w')
    ensures Runs(link, w, first + second, w')
    decreases |first|
  {
    if first == [] {
      assert first + second == second;
    } else {
      RunsConcat(link, Step(link, w, first[0]), first[1..], second, mid, w');
      assert (first + second)[1..] == first[1..] + second && (first + second)[0] == first[0];
    }
  }

  lemma OneStep(link: Linker, w: World, e: Event)
    requires Enabled(w, e)
    ensures Runs(link, w, [e], Step(link, w, e))
  {
    assert [e][1..] == [];
  }

  /** The world after a call that began, read and inserted with nobody in between. */
  ghost function Served(link: Linker, w: World, input: Input): World {
    var row := NextEntry(link, w.rows, input);
    World(w.rows + [row], w.calls + [Call(input, Returned(row), 0, |w.rows|)])
  }

  function ServeEvents(n: nat, input: Input): seq<Event> {
    ([Begin(input)] + [ReadHead(n)]) + [TryInsert(n)]
  }

  lemma ServedIsThreeSteps(link: Linker, w: World, input: Input)
    requires Chained(link, w.rows)
    ensures Runs(link, w, ServeEvents(|w.calls|, input), Served(link, w, input))
    ensures Chained(link, Served(link, w, input).rows)
  {
    var n := |w.calls|;
    var begun := Step(link, w, Begin(input));
    OneStep(link, w, Begin(input));
    var read := Step(link, begun, ReadHead(n));
    OneStep(link, begun, ReadHead(n));
    RunsConcat(link, w, [Begin(input)], [ReadHead(n)], begun, read);
    ChainedSeqNumbers(link, w.rows);
    OneStep(link, read, TryInsert(n));
    assert Step(link, read, TryInsert(n)).calls == Served(link, w, input).calls;
    RunsConcat(link, w, [Begin(input)] + [ReadHead(n)], [TryInsert(n)], read, Served(link, w, input));
    AppendKeepsChained(link, w.rows, input);
  }

  /** The world after rivals were served one after another. */
  ghost function AfterRivals(link: Linker, w: World, rivals: seq<Input>): (r: World)
    ensures w.calls <= r.calls && |r.calls| == |w.calls| + |rivals|
    ensures r.rows == AppendedAll(link, w.rows, rivals)
  {
    if rivals == [] then w
    else Served(link, AfterRivals(link, w, rivals[..|rivals| - 1]), rivals[|rivals| - 1])
  }

  function RivalEvents(n: nat, rivals: seq<Input>): seq<Event> {
    if rivals == [] then []
    else
      var k := |rivals| - 1;
      RivalEvents(n, rivals[..k]) + ServeEvents(n + k, rivals[k])
  }

  /** One rival more, after any run. */
  lemma ServesOneMore(link: Linker, w: World, events: seq<Event>, mid: World, input: Input)
    requires Runs(link, w, events, mid) && Chained(link, mid.rows)
    ensures Runs(link, w, events + ServeEvents(|mid.calls|, input), Served(link, mid, input))
    ensures Chained(link, Served(link, mid, input).rows)
  {
    ServedIsThreeSteps(link, mid, input);
    RunsConcat(link, w, events, ServeEvents(|mid.calls|, input), mid, Served(link, mid, input));
  }

  lemma {:induction false} RivalsRun(link: Linker, w: World, rivals: seq<Input>)
    requires Chained(link, w.rows)
    ensures Runs(link, w, RivalEvents(|w.calls|, rivals), AfterRivals(link, w, rivals))
    ensures Chained(link, AfterRivals(link, w, rivals).rows)
  {
    if rivals != [] {
      var k := |rivals| - 1;
      RivalsRun(link, w, rivals[..k]);
      ServesOneMore(link, w, RivalEvents(|w.calls|, rivals[..k]), AfterRivals(link, w, rivals[..k]), rivals[k]);
    }
  }

  /** Call c reads the head, the rivals are served, c inserts. */
  function Transaction(w: World, c: nat, rivals: seq<Input>): seq<Event> {
    ([ReadHead(c)] + RivalEvents(|w.calls|, rivals)) + [TryInsert(c)]
  }

  lemma AppendedIsLonger(link: Linker, rows: Rows, rivals: seq<Input>)
    ensures |AppendedAll(link, rows, rivals)| == |rows| <==> rivals == []
    ensures rivals == [] ==> AppendedAll(link, rows, rivals) == rows
  {
  }

  /**
   * One transaction of the repository is a run of the protocol: from a call that is reading, it ends with the
   * outcome TryAppend promises, the row returned when no rival was served and one more attempt used when one was.
   */
  lemma TryAppendIsRun(link: Linker, w: World, c: nat, rivals: seq<Input>) returns (w': World)
    requires Chained(link, w.rows) && c < |w.calls| && w.calls[c].phase.Reading?
    ensures Runs(link, w, Transaction(w, c, rivals), w') && Chained(link, w'.rows) && c < |w'.calls|
    ensures var row := NextEntry(link, w.rows, w.calls[c].input);
            && Tried(link, w.rows, w.calls[c].input, rivals, w'.calls[c].phase.Returned?, row, w'.rows)
            && w'.calls[c] == if rivals == [] then w.calls[c].(phase := Returned(row)) else AfterCollision(w.calls[c])
  {
    var q := w.calls[c];
    var read := Step(link, w, ReadHead(c));
    OneStep(link, w, ReadHead(c));
    RivalsRun(link, read, rivals);
    var raced := AfterRivals(link, read, rivals);
    RunsConcat(link, w, [ReadHead(c)], RivalEvents(|w.calls|, rivals), read, raced);
    assert raced.calls[c] == read.calls[c];
    w' := Step(link, raced, TryInsert(c));
    OneStep(link, raced, TryInsert(c));
    RunsConcat(link, w, [ReadHead(c)] + RivalEvents(|w.calls|, rivals), [TryInsert(c)], raced, w');
    ChainedSeqNumbers(link, raced.rows);
    AppendedIsLonger(link, w.rows, rivals);
    if rivals == [] { AppendKeepsChained(link, w.rows, q.input); }
  }
}
