/** The ledger entries that money is read back from, and the per-invoice sums over them. */
module RecoveryEvents {
  import opened Sums
  import opened Wrappers

  datatype Kind =
    | HoldoutAssigned | CaseRecovered | CaseReversed | ReversalReverted
    | ChargeSucceeded | ChargeFailed | CommsSent | UpliftStatement | OtherKind

  /** An absent or empty string in the detail is "", an absent or unusable amount 0. */
  datatype Event = Event(
    merchant: string, kind: Kind, at: Option<int>, invoice: string, amount: real, currency: string,
    processor: string, bucket: string, customer: string, stratum: string, lowerDollarsCum: Option<int>)

  function InvoiceOf(e: Event): string { e.invoice }

  function OwnerOf(e: Event): (string, string) { (e.merchant, e.invoice) }

  function KindAmount(kind: Kind): Event -> real { (e: Event) => if e.kind == kind then e.amount else 0.0 }

  /** Everything recorded of one kind for an invoice, whoever recorded it. */
  function CaseTotal(ledger: seq<Event>, kind: Kind, invoice: string): real {
    KeyTotal(ledger, InvoiceOf, KindAmount(kind), invoice)
  }

  /** The same, for one merchant alone. */
  function OwnTotal(ledger: seq<Event>, kind: Kind, merchant: string, invoice: string): real {
    KeyTotal(ledger, OwnerOf, KindAmount(kind), (merchant, invoice))
  }

  predicate IsCase(e: Event) { e.kind == CaseRecovered || e.kind == CaseReversed || e.kind == ReversalReverted }

  /** What an entry adds to net recovered revenue. */
  function Signed(e: Event): real {
    match e.kind
    case CaseRecovered => e.amount
    case CaseReversed => -e.amount
    case ReversalReverted => e.amount
    case _ => 0.0
  }

  /** One merchant's net on one invoice: recovered, less reversed, plus reinstated. */
  function OwnNet(ledger: seq<Event>, merchant: string, invoice: string): real {
    KeyTotal(ledger, OwnerOf, Signed, (merchant, invoice))
  }

  lemma {:induction false} NetIsSigned<K>(ledger: seq<Event>, key: Event -> K, k: K)
    ensures KeyTotal(ledger, key, Signed, k) ==
            KeyTotal(ledger, key, KindAmount(CaseRecovered), k) - KeyTotal(ledger, key, KindAmount(CaseReversed), k)
            + KeyTotal(ledger, key, KindAmount(ReversalReverted), k)
  {
    if ledger != [] { NetIsSigned(ledger[..|ledger| - 1], key, k); }
  }

  /** No invoice id is shared between merchants. */
  ghost predicate OneOwner(ledger: seq<Event>) {
    forall d, e :: d in ledger && e in ledger && IsCase(d) && IsCase(e) && d.invoice == e.invoice ==>
      d.merchant == e.merchant
  }

  lemma {:induction false} OwnIsAll(ledger: seq<Event>, kind: Kind, merchant: string, invoice: string)
    requires forall e :: e in ledger && e.kind == kind && e.invoice == invoice ==> e.merchant == merchant
    ensures OwnTotal(ledger, kind, merchant, invoice) == CaseTotal(ledger, kind, invoice)
  {
    if ledger != [] { OwnIsAll(ledger[..|ledger| - 1], kind, merchant, invoice); }
  }

  lemma {:induction false} OwnIsNone(ledger: seq<Event>, kind: Kind, merchant: string, invoice: string)
    requires forall e :: e in ledger && e.kind == kind && e.invoice == invoice ==> e.merchant != merchant
    ensures OwnTotal(ledger, kind, merchant, invoice) == 0.0
  {
    if ledger != [] { OwnIsNone(ledger[..|ledger| - 1], kind, merchant, invoice); }
  }

  ghost predicate OwnsAll(ledger: seq<Event>, merchant: string, invoice: string) {
    && OwnTotal(ledger, CaseRecovered, merchant, invoice) == CaseTotal(ledger, CaseRecovered, invoice)
    && OwnTotal(ledger, CaseReversed, merchant, invoice) == CaseTotal(ledger, CaseReversed, invoice)
    && OwnTotal(ledger, ReversalReverted, merchant, invoice) == CaseTotal(ledger, ReversalReverted, invoice)
  }

  ghost predicate OwnsNone(ledger: seq<Event>, merchant: string, invoice: string) {
    && OwnTotal(ledger, CaseRecovered, merchant, invoice) == 0.0
    && OwnTotal(ledger, CaseReversed, merchant, invoice) == 0.0
    && OwnTotal(ledger, ReversalReverted, merchant, invoice) == 0.0
  }

  /** With one owner per invoice, a merchant's totals on it are all of them or none of them. */
  lemma AllOrNone(ledger: seq<Event>, merchant: string, invoice: string)
    requires OneOwner(ledger)
    ensures OwnsAll(ledger, merchant, invoice) || OwnsNone(ledger, merchant, invoice)
  {
    if d :| d in ledger && IsCase(d) && d.invoice == invoice && d.merchant == merchant {
      OwnIsAll(ledger, CaseRecovered, merchant, invoice);
      OwnIsAll(ledger, CaseReversed, merchant, invoice);
      OwnIsAll(ledger, ReversalReverted, merchant, invoice);
    } else {
      OwnIsNone(ledger, CaseRecovered, merchant, invoice);
      OwnIsNone(ledger, CaseReversed, merchant, invoice);
      OwnIsNone(ledger, ReversalReverted, merchant, invoice);
    }
  }
}
