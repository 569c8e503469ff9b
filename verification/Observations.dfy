/** Billing observations read back from the ledger: one per holdout assignment in the period. */
module Observations {
  import opened RecoveryEvents
  import opened Reversals
  import opened Sums
  import opened PostStratification
  import opened Wrappers

  datatype Period = Period(start: int, end: int)

  /** An assignment that opens an observation for this merchant and period. */
  predicate Opens(e: Event, merchant: string, period: Period) {
    && e.kind == HoldoutAssigned && e.merchant == merchant
    && e.at.Some? && period.start <= e.at.value < period.end
    && e.invoice != "" && (e.bucket == "treatment" || e.bucket == "control")
  }

  function ObservationOf(e: Event, outcome: real): Observation {
    Observation(e.bucket == "treatment", if e.customer != "" then e.customer else e.invoice,
                if e.stratum != "" then e.stratum else "default", outcome, e.amount)
  }

  /** The observations of a run of assignments, with outcomes read from the whole ledger. */
  function ObservationsFrom(entries: seq<Event>, ledger: seq<Event>, merchant: string,
                            period: Period): seq<Observation> {
    if entries == [] then []
    else
      var prior, e := ObservationsFrom(entries[..|entries| - 1], ledger, merchant, period), entries[|entries| - 1];
      if Opens(e, merchant, period) then prior + [ObservationOf(e, OwnNet(ledger, merchant, e.invoice))] else prior
  }

  function ObservationsOf(ledger: seq<Event>, merchant: string, period: Period): seq<Observation> {
    ObservationsFrom(ledger, ledger, merchant, period)
  }

  /** net maps each invoice that has a case entry to its signed total so far. */
  ghost predicate Nets(net: map<string, real>, entries: seq<Event>, merchant: string) {
    forall inv :: inv != "" ==> OwnNet(entries, merchant, inv) == if inv in net then net[inv] else 0.0
  }

  lemma NetsNext(net: map<string, real>, entries: seq<Event>, merchant: string, i: nat)
    requires i < |entries| && Nets(net, entries[..i], merchant)
    ensures var e := entries[i];
            if e.merchant == merchant && e.invoice != "" && IsCase(e)
            then Nets(net[e.invoice := (if e.invoice in net then net[e.invoice] else 0.0) + Signed(e)],
                      entries[..i + 1], merchant)
            else Nets(net, entries[..i + 1], merchant)
  {
    TakeNext(entries, i);
  }

  method NetPerInvoice(entries: seq<Event>, merchant: string) returns (net: map<string, real>)
    ensures Nets(net, entries, merchant)
  {
    net := map[];
    var i := 0;
    while i < |entries|
      invariant i <= |entries| && Nets(net, entries[..i], merchant)
    {
      NetsNext(net, entries, merchant, i);
      var e := entries[i];
      if e.merchant == merchant && e.invoice != "" && IsCase(e) {
        var before := if e.invoice in net then net[e.invoice] else 0.0;
        net := net[e.invoice := before + Signed(e)];
      }
      i := i + 1;
    }
    assert entries[..i] == entries;
  }

  method ReconstructObservations(entries: seq<Event>, merchant: string, period: Period) returns (obs: seq<Observation>)
    ensures obs == ObservationsOf(entries, merchant, period)
  {
    var net := NetPerInvoice(entries, merchant);
    obs := [];
    var i := 0;
    while i < |entries|
      invariant i <= |entries| && obs == ObservationsFrom(entries[..i], entries, merchant, period)
    {
      TakeNext(entries, i);
      var e := entries[i];
      if Opens(e, merchant, period) {
        obs := obs + [ObservationOf(e, if e.invoice in net then net[e.invoice] else 0.0)];
      }
      i := i + 1;
    }
    assert entries[..i] == entries;
  }

  /** Each observation comes from an assignment, and carries that invoice's all-time net for the merchant. */
  lemma {:induction false} ObservationSource(entries: seq<Event>, ledger: seq<Event>, merchant: string, period: Period,
                                             o: Observation)
    requires o in ObservationsFrom(entries, ledger, merchant, period)
    ensures exists e ::
              && e in entries && Opens(e, merchant, period)
              && o == ObservationOf(e, OwnNet(ledger, merchant, e.invoice))
  {
    var prior, last := entries[..|entries| - 1], entries[|entries| - 1];
    if o in ObservationsFrom(prior, ledger, merchant, period) {
      ObservationSource(prior, ledger, merchant, period, o);
      var e :| e in prior && Opens(e, merchant, period) && o == ObservationOf(e, OwnNet(ledger, merchant, e.invoice));
      assert e in entries;
    } else {
      assert last in entries && Opens(last, merchant, period);
    }
  }

  lemma {:induction false} SameNetsSameObservations(entries: seq<Event>, a: seq<Event>, b: seq<Event>,
                                                    merchant: string, period: Period)
    requires forall invoice :: OwnNet(b, merchant, invoice) == OwnNet(a, merchant, invoice)
    ensures ObservationsFrom(entries, b, merchant, period) == ObservationsFrom(entries, a, merchant, period)
  {
    if entries != [] { SameNetsSameObservations(entries[..|entries| - 1], a, b, merchant, period); }
  }

  lemma {:induction false} NoAssignmentNoObservation(entries: seq<Event>, tail: seq<Event>, ledger: seq<Event>,
                                                     merchant: string, period: Period)
    requires forall i :: 0 <= i < |tail| ==> tail[i].kind != HoldoutAssigned
    ensures ObservationsFrom(entries + tail, ledger, merchant, period)
            == ObservationsFrom(entries, ledger, merchant, period)
  {
    if tail == [] {
      assert entries + tail == entries;
    } else {
      var n := |tail| - 1;
      NoAssignmentNoObservation(entries, tail[..n], ledger, merchant, period);
      assert (entries + tail)[..|entries| + n] == entries + tail[..n];
    }
  }

  /** Entries that are no assignment and leave every net as it was change no observation. */
  lemma SameEvidence(ledger: seq<Event>, tail: seq<Event>, merchant: string, period: Period)
    requires forall i :: 0 <= i < |tail| ==> tail[i].kind != HoldoutAssigned
    requires forall invoice :: OwnNet(ledger + tail, merchant, invoice) == OwnNet(ledger, merchant, invoice)
    ensures ObservationsOf(ledger + tail, merchant, period) == ObservationsOf(ledger, merchant, period)
  {
    NoAssignmentNoObservation(ledger, tail, ledger + tail, merchant, period);
    SameNetsSameObservations(ledger, ledger, ledger + tail, merchant, period);
  }

  lemma {:induction false} StatementsAddNothing<K>(ledger: seq<Event>, statements: seq<Event>, key: Event -> K,
                                                   h: Event -> real, k: K)
    requires forall i :: 0 <= i < |statements| ==> h(statements[i]) == 0.0
    ensures KeyTotal(ledger + statements, key, h, k) == KeyTotal(ledger, key, h, k)
  {
    if statements == [] {
      assert ledger + statements == ledger;
    } else {
      var n := |statements| - 1;
      StatementsAddNothing(ledger, statements[..n], key, h, k);
      KeyTotalAppend(ledger + statements[..n], statements[n], key, h, k);
      assert ledger + statements == (ledger + statements[..n]) + [statements[n]];
    }
  }

  /** Billing statements are not evidence: appending them changes no observation. */
  lemma StatementsAreNotEvidence(ledger: seq<Event>, statements: seq<Event>, merchant: string, period: Period)
    requires forall i :: 0 <= i < |statements| ==> statements[i].kind == UpliftStatement
    ensures ObservationsOf(ledger + statements, merchant, period) == ObservationsOf(ledger, merchant, period)
  {
    forall invoice ensures OwnNet(ledger + statements, merchant, invoice) == OwnNet(ledger, merchant, invoice) {
      StatementsAddNothing(ledger, statements, OwnerOf, Signed, (merchant, invoice));
    }
    SameEvidence(ledger, statements, merchant, period);
  }

  /** Over any run of recoveries, reversals and reinstatements, an invoice's outcome never leaves [0, recovered]. */
  lemma OutcomesInRange(ops: seq<Op>, merchant: string, period: Period, o: Observation)
    requires forall i :: 0 <= i < |ops| ==> Admissible(ops[i])
    requires OneOwner(AppliedAll(ops)) && o in ObservationsOf(AppliedAll(ops), merchant, period)
    ensures exists e :: e in AppliedAll(ops) && Opens(e, merchant, period)
              && 0.0 <= o.outcome <= OwnTotal(AppliedAll(ops), CaseRecovered, merchant, e.invoice)
  {
    var ledger := AppliedAll(ops);
    RunIsBalanced(ops);
    ObservationSource(ledger, ledger, merchant, period, o);
    var e :| e in ledger && Opens(e, merchant, period) && o == ObservationOf(e, OwnNet(ledger, merchant, e.invoice));
    OutcomeInRange(ledger, merchant, e.invoice);
  }
}
