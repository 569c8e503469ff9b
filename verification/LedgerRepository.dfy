/** The persisted ledger: appenders race for the next seq, and the unique key sends losers back to the head. */
module LedgerRepository {
  import opened Ledger

  const MAX_APPEND_RETRIES: nat := 8

  type Rows = seq<LedgerEntry>

  /** Some row already has this primary key. */
  predicate SeqTaken(rows: Rows, n: int) {
    exists i :: 0 <= i < |rows| && rows[i].data.seqNo == n
  }

  lemma ChainedSeqNumbers(link: Linker, rows: Rows)
    requires Chained(link, rows)
    ensures forall i :: 0 <= i < |rows| ==> rows[i].data.seqNo == i
    ensures forall n: int :: SeqTaken(rows, n) <==> 0 <= n < |rows|
  {
    forall i | 0 <= i < |rows| ensures rows[i].data.seqNo == i {
      assert EntryOk(link, rows, i);
    }
    forall n: int ensures SeqTaken(rows, n) <==> 0 <= n < |rows| {
      if 0 <= n < |rows| { assert rows[n].data.seqNo == n; }
    }
  }

  // ----- one append, with whatever rivals commit between its read and its insert -----

  /** The rows after these inputs are committed one after another. */
  ghost function AppendedAll(link: Linker, rows: Rows, inputs: seq<Input>): (r: Rows)
    ensures rows <= r && |r| == |rows| + |inputs|
  {
    if inputs == [] then rows
    else
      var prior := AppendedAll(link, rows, inputs[..|inputs| - 1]);
      prior + [NextEntry(link, prior, inputs[|inputs| - 1])]
  }

  lemma {:induction false} AppendedChained(link: Linker, rows: Rows, inputs: seq<Input>)
    requires Chained(link, rows)
    ensures Chained(link, AppendedAll(link, rows, inputs))
  {
    if inputs != [] {
      AppendedChained(link, rows, inputs[..|inputs| - 1]);
      AppendKeepsChained(link, AppendedAll(link, rows, inputs[..|inputs| - 1]), inputs[|inputs| - 1]);
    }
  }

  lemma AppendedOne(link: Linker, rows: Rows, inputs: seq<Input>, input: Input)
    ensures var prior := AppendedAll(link, rows, inputs);
            AppendedAll(link, rows, inputs + [input]) == prior + [NextEntry(link, prior, input)]
  {
    assert (inputs + [input])[..|inputs|] == inputs;
  }

  lemma AppendedStep(link: Linker, rows: Rows, inputs: seq<Input>, i: nat)
    requires i < |inputs|
    ensures var prior := AppendedAll(link, rows, inputs[..i]);
            AppendedAll(link, rows, inputs[..i + 1]) == prior + [NextEntry(link, prior, inputs[i])]
  {
    AppendedOne(link, rows, inputs[..i], inputs[i]);
    assert inputs[..i + 1] == inputs[..i] + [inputs[i]];
  }

  lemma {:induction false} AppendedConcat(link: Linker, rows: Rows, first: seq<Input>, second: seq<Input>,
                                          all: seq<Input>, mid: Rows)
    requires all == first + second && mid == AppendedAll(link, rows, first)
    ensures AppendedAll(link, rows, all) == AppendedAll(link, mid, second)
    decreases second
  {
    if second == [] {
      assert all == first;
    } else {
      var k, n := |all| - 1, |second| - 1;
      assert all[..k] == first + second[..n] && all[k] == second[n];
      AppendedConcat(link, rows, first, second[..n], all[..k], mid);
    }
  }

  /** What rivals commit during attempt k. */
  function RivalsAt(rivals: seq<seq<Input>>, k: nat): seq<Input> {
    if k < |rivals| then rivals[k] else []
  }

  ghost function RivalsBefore(rivals: seq<seq<Input>>, k: nat): seq<Input> {
    if k == 0 then [] else RivalsBefore(rivals, k - 1) + RivalsAt(rivals, k - 1)
  }

  ghost predicate LosesFirst(rivals: seq<seq<Input>>, k: nat) {
    forall i :: 0 <= i < k ==> RivalsAt(rivals, i) != []
  }

  datatype AppendResult = Committed(entry: LedgerEntry) | LostTheRace

  /** A call that lost k attempts saw at least k rows committed by others. */
  lemma {:induction false} EachLossIsARow(rivals: seq<seq<Input>>, k: nat)
    requires LosesFirst(rivals, k)
    ensures |RivalsBefore(rivals, k)| >= k
  {
    if k > 0 { EachLossIsARow(rivals, k - 1); }
  }

  /** Append commits on attempt k, onto what the rivals of the attempts it lost had committed. */
  ghost predicate CommitsAt(link: Linker, before: Rows, input: Input, rivals: seq<seq<Input>>, k: nat, after: Rows) {
    && RivalsAt(rivals, k) == [] && after != []
    && after == AppendedAll(link, before, RivalsBefore(rivals, k) + [input])
  }

  /** Append reaches attempt k with the rivals of the attempts it lost appended, and nothing else. */
  ghost predicate ReachesAttempt(link: Linker, before: Rows, rivals: seq<seq<Input>>, k: nat, rows: Rows) {
    && Chained(link, rows) && before <= rows
    && rows == AppendedAll(link, before, RivalsBefore(rivals, k))
  }

  /** Attempt k either commits onto what the earlier rivals left, or adds its own rivals to it. */
  lemma AttemptOutcome(link: Linker, before: Rows, input: Input, rivals: seq<seq<Input>>, k: nat, rows: Rows)
    requires ReachesAttempt(link, before, rivals, k, rows)
    ensures ReachesAttempt(link, before, rivals, k + 1, AppendedAll(link, rows, RivalsAt(rivals, k)))
    ensures var after := rows + [NextEntry(link, rows, input)];
            && Chained(link, after) && before <= after
            && (RivalsAt(rivals, k) == [] ==> CommitsAt(link, before, input, rivals, k, after))
  {
    AppendedConcat(link, before, RivalsBefore(rivals, k), RivalsAt(rivals, k),
                   RivalsBefore(rivals, k) + RivalsAt(rivals, k), rows);
    AppendedChained(link, rows, RivalsAt(rivals, k));
    AppendedOne(link, before, RivalsBefore(rivals, k), input);
    AppendKeepsChained(link, rows, input);
  }

  /** One transaction: the row links to the head it read, and is added exactly when no rival committed in between. */
  ghost predicate Tried(link: Linker, before: Rows, input: Input, rivals: seq<Input>, ok: bool, row: LedgerEntry,
                        after: Rows) {
    && (ok <==> rivals == []) && row == NextEntry(link, before, input)
    && after == if ok then before + [row] else AppendedAll(link, before, rivals)
  }

  class LedgerTable {
    const link: Linker
    var rows: Rows

    constructor (link: Linker)
      ensures this.link == link && rows == [] && Chained(link, rows)
    {
      this.link := link;
      rows := [];
    }

    /** The row with the greatest seq gives the next seq and the hash to link to. */
    method ReadHead() returns (seqNo: int, prevHash: string)
      requires Chained(link, rows)
      ensures seqNo == |rows| && prevHash == Head(rows)
    {
      ChainedSeqNumbers(link, rows);
      if rows == [] { return 0, GENESIS_HASH; }
      var best := 0;
      for i := 1 to |rows|
        invariant best == i - 1
      {
        if rows[i].data.seqNo > rows[best].data.seqNo { best := i; }
      }
      seqNo, prevHash := rows[best].data.seqNo + 1, rows[best].hash;
    }

    /** False, changing nothing, on a duplicate key. */
    method Insert(row: LedgerEntry) returns (ok: bool)
      modifies this
      ensures ok <==> !SeqTaken(old(rows), row.data.seqNo)
      ensures rows == if ok then old(rows) + [row] else old(rows)
    {
      ok := !SeqTaken(rows, row.data.seqNo);
      if ok { rows := rows + [row]; }
    }

    /** Read and insert with nobody in between. */
    method CommitOne(input: Input)
      requires Chained(link, rows)
      modifies this
      ensures rows == old(rows) + [NextEntry(link, old(rows), input)]
    {
      var seqNo, prevHash := ReadHead();
      ChainedSeqNumbers(link, rows);
      var ok := Insert(EntryFor(link, input, seqNo, prevHash));
    }

    method CommitAll(inputs: seq<Input>)
      requires Chained(link, rows)
      modifies this
      ensures rows == AppendedAll(link, old(rows), inputs)
    {
      ghost var before := rows;
      for i := 0 to |inputs|
        invariant Chained(link, rows) && rows == AppendedAll(link, before, inputs[..i])
      {
        AppendedStep(link, before, inputs, i);
        AppendKeepsChained(link, rows, inputs[i]);
        CommitOne(inputs[i]);
      }
      assert inputs[..|inputs|] == inputs;
    }

    /** One transaction: read the head, let the rivals commit, insert. */
    method TryAppend(input: Input, rivals: seq<Input>) returns (ok: bool, row: LedgerEntry)
      requires Chained(link, rows)
      modifies this
      ensures Tried(link, old(rows), input, rivals, ok, row, rows)
    {
      var seqNo, prevHash := ReadHead();
      row := EntryFor(link, input, seqNo, prevHash);
      CommitAll(rivals);
      AppendedChained(link, old(rows), rivals);
      ChainedSeqNumbers(link, rows);
      ok := Insert(row);
    }

    /** Attempt k of a call that found the table as before. */
    method Attempt(input: Input, rivals: seq<seq<Input>>, k: nat, ghost before: Rows)
      returns (ok: bool, row: LedgerEntry)
      requires ReachesAttempt(link, before, rivals, k, rows)
      modifies this
      ensures !ok ==> RivalsAt(rivals, k) != [] && ReachesAttempt(link, before, rivals, k + 1, rows)
      ensures ok ==> CommitsAt(link, before, input, rivals, k, rows) && row == rows[|rows| - 1]
      ensures Chained(link, rows) && before <= rows
    {
      AttemptOutcome(link, before, input, rivals, k, rows);
      ok, row := TryAppend(input, RivalsAt(rivals, k));
    }

    /** Commits on the first attempt no rival beats, after the rivals of the attempts it lost; gives up after eight. */
    method Append(input: Input, rivals: seq<seq<Input>>) returns (r: AppendResult, ghost lost: nat)
      requires Chained(link, rows)
      modifies this
      ensures Chained(link, rows) && old(rows) <= rows
      ensures lost <= MAX_APPEND_RETRIES && LosesFirst(rivals, lost) && (r.LostTheRace? <==> lost == MAX_APPEND_RETRIES)
      ensures r.LostTheRace? ==> ReachesAttempt(link, old(rows), rivals, lost, rows)
      ensures r.Committed? ==> CommitsAt(link, old(rows), input, rivals, lost, rows) && r.entry == rows[|rows| - 1]
    {
      ghost var before := rows;
      var attempt := 0;
      while attempt < MAX_APPEND_RETRIES
        invariant attempt <= MAX_APPEND_RETRIES && LosesFirst(rivals, attempt)
        invariant ReachesAttempt(link, before, rivals, attempt, rows)
      {
        var ok, row := Attempt(input, rivals, attempt, before);
        if ok { return Committed(row), attempt; }
        attempt := attempt + 1;
      }
      return LostTheRace, attempt;
    }

    /** verify(): the check over the persisted rows never fails. */
    method Verify() returns (v: ChainVerification)
      requires Chained(link, rows)
      ensures v == Valid
    {
      v := VerifyChain(link, rows);
    }
  }
}
