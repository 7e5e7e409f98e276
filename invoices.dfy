/**
 * Tax invoices and their payments (app/invoices/routes.py, app/models.py
 * Invoice/InvoicePayment): Finance converts an Issued PI whose invoice was
 * requested into one Unpaid invoice; payments against it count towards the
 * collected amount unless Rejected.
 */
module Invoicing {
  import opened Wrappers
  import opened Numbers
  import opened Accounts
  import opened Quotes
  import opened Proforma

  datatype InvoiceStatus = Unpaid | PartiallyPaid | Paid | InvoiceCancelled

  datatype Invoice = Invoice(
    id: nat, invoiceNo: string, invoiceDate: int, creditDays: int, dueDate: int,
    piId: nat, quoteId: int, clientId: Option<int>, currency: string,
    subtotal: real, discount: Option<real>, tax: real, cgst: real, sgst: real, igst: real,
    totalAmount: real, terms: string, status: InvoiceStatus, createdBy: int)

  datatype PaymentStatus = PaymentPending | PaymentVerified | PaymentRejected

  datatype Payment = Payment(
    id: nat, invoiceId: nat, paymentDate: int, amount: real, transferType: string,
    reference: Option<string>, status: PaymentStatus, createdBy: int,
    verifiedBy: Option<int>, verifiedAt: Option<int>, remarks: Option<string>)

  // ------------------------------------------------------------ collections

  /** `if exclude_payment_id:` — an id of 0 excludes nothing. */
  predicate Excluded(p: Payment, exclude: Option<nat>)
  {
    exclude.Some? && exclude.value != 0 && p.id == exclude.value
  }

  /** What one payment adds to an invoice's collected amount. */
  function Counted(p: Payment, invoiceId: nat, exclude: Option<nat>): real
  {
    if p.invoiceId == invoiceId && p.status != PaymentRejected && !Excluded(p, exclude) then p.amount else 0.0
  }

  /** `get_current_collected`: the invoice's non-Rejected payments, optionally without one payment. */
  function CurrentCollected(payments: seq<Payment>, invoiceId: nat, exclude: Option<nat>): real
  {
    if payments == [] then 0.0
    else Counted(payments[0], invoiceId, exclude) + CurrentCollected(payments[1..], invoiceId, exclude)
  }

  /** `Invoice.collected_amount`: Pending and Verified payments count, Rejected ones do not. */
  function Collected(payments: seq<Payment>, invoiceId: nat): real
  {
    CurrentCollected(payments, invoiceId, None)
  }

  /** `Invoice.remaining_amount`. */
  function Remaining(inv: Invoice, payments: seq<Payment>): real
  {
    inv.totalAmount - Collected(payments, inv.id)
  }

  predicate PositiveAmounts(payments: seq<Payment>)
  {
    forall j :: 0 <= j < |payments| ==> payments[j].amount > 0.0
  }

  lemma {:induction false} CollectedNonNegative(payments: seq<Payment>, invoiceId: nat, exclude: Option<nat>)
    requires PositiveAmounts(payments)
    ensures CurrentCollected(payments, invoiceId, exclude) >= 0.0
  {
    if payments != [] {
      CollectedNonNegative(payments[1..], invoiceId, exclude);
    }
  }

  lemma {:induction false} CollectedAppend(payments: seq<Payment>, p: Payment, invoiceId: nat, exclude: Option<nat>)
    ensures CurrentCollected(payments + [p], invoiceId, exclude) == CurrentCollected(payments, invoiceId, exclude) + Counted(p, invoiceId, exclude)
  {
    if payments != [] {
      assert (payments + [p])[1..] == payments[1..] + [p];
      CollectedAppend(payments[1..], p, invoiceId, exclude);
    }
  }

  lemma {:induction false} CollectedUpdate(payments: seq<Payment>, k: nat, p: Payment, invoiceId: nat, exclude: Option<nat>)
    requires k < |payments|
    ensures CurrentCollected(payments[k := p], invoiceId, exclude) ==
            CurrentCollected(payments, invoiceId, exclude) - Counted(payments[k], invoiceId, exclude) + Counted(p, invoiceId, exclude)
  {
    if k > 0 {
      assert payments[k := p][1..] == payments[1..][k - 1 := p];
      CollectedUpdate(payments[1..], k - 1, p, invoiceId, exclude);
    } else {
      assert payments[k := p][1..] == payments[1..];
    }
  }

  /** Excluding an id no payment carries changes nothing. */
  lemma {:induction false} ExcludingAbsentId(payments: seq<Payment>, invoiceId: nat, x: nat)
    requires forall j :: 0 <= j < |payments| ==> payments[j].id != x
    ensures CurrentCollected(payments, invoiceId, Some(x)) == CurrentCollected(payments, invoiceId, None)
  {
    if payments != [] {
      ExcludingAbsentId(payments[1..], invoiceId, x);
    }
  }

  /** Excluding a payment by its (unique, non-zero) id takes exactly its own share out. */
  lemma {:induction false} ExcludingOne(payments: seq<Payment>, k: nat, invoiceId: nat)
    requires k < |payments| && payments[k].id != 0
    requires forall j :: 0 <= j < |payments| && j != k ==> payments[j].id != payments[k].id
    ensures CurrentCollected(payments, invoiceId, Some(payments[k].id)) ==
            Collected(payments, invoiceId) - Counted(payments[k], invoiceId, None)
  {
    if k == 0 {
      ExcludingAbsentId(payments[1..], invoiceId, payments[0].id);
    } else {
      ExcludingOne(payments[1..], k - 1, invoiceId);
    }
  }

  /** An invoice no payment points at has collected nothing. */
  lemma {:induction false} NothingCollected(payments: seq<Payment>, invoiceId: nat)
    requires forall j :: 0 <= j < |payments| ==> payments[j].invoiceId != invoiceId
    ensures Collected(payments, invoiceId) == 0.0
  {
    if payments != [] {
      NothingCollected(payments[1..], invoiceId);
    }
  }

  /** `Quote.collected_amount`: non-Rejected payments of every invoice of the quote. */
  function QuoteCollected(invoices: seq<Invoice>, payments: seq<Payment>, quoteId: int): real
  {
    if payments == [] then 0.0
    else
      var p := payments[0];
      var k := FindInvoice(invoices, p.invoiceId);
      (if k.Some? && invoices[k.value].quoteId == quoteId && p.status != PaymentRejected then p.amount else 0.0)
        + QuoteCollected(invoices, payments[1..], quoteId)
  }

  /** `Quote.remaining_amount`. */
  function QuoteRemaining(totalAmount: real, invoices: seq<Invoice>, payments: seq<Payment>, quoteId: int): real
  {
    totalAmount - QuoteCollected(invoices, payments, quoteId)
  }

  /** A quote with a single invoice has collected exactly what that invoice has. */
  lemma {:induction false} QuoteCollectedSingleInvoice(invoices: seq<Invoice>, payments: seq<Payment>, i: nat)
    requires i < |invoices|
    requires forall j :: 0 <= j < |invoices| && invoices[j].quoteId == invoices[i].quoteId ==> j == i
    requires forall j :: 0 <= j < |invoices| && j != i ==> invoices[j].id != invoices[i].id
    ensures QuoteCollected(invoices, payments, invoices[i].quoteId) == Collected(payments, invoices[i].id)
  {
    if payments != [] {
      var p := payments[0];
      var k := FindInvoice(invoices, p.invoiceId);
      if p.invoiceId == invoices[i].id {
        assert k == Some(i);
      }
      QuoteCollectedSingleInvoice(invoices, payments[1..], i);
    }
  }

  // -------------------------------------------------------------- lookups

  /** `Invoice.query.get_or_404(id)`: the position of the invoice with that id. */
  function FindInvoice(invoices: seq<Invoice>, id: int): (k: Option<nat>)
    ensures k.Some? ==> k.value < |invoices| && invoices[k.value].id == id
    ensures k.None? ==> forall i :: 0 <= i < |invoices| ==> invoices[i].id != id
  {
    if invoices == [] then None
    else if invoices[|invoices| - 1].id == id then Some(|invoices| - 1)
    else
      var k := FindInvoice(invoices[..|invoices| - 1], id);
      assert forall i :: 0 <= i < |invoices| - 1 ==> invoices[..|invoices| - 1][i] == invoices[i];
      k
  }

  /** `InvoicePayment.query.get_or_404(id)`. */
  function FindPayment(payments: seq<Payment>, id: int): (k: Option<nat>)
    ensures k.Some? ==> k.value < |payments| && payments[k.value].id == id
    ensures k.None? ==> forall i :: 0 <= i < |payments| ==> payments[i].id != id
  {
    if payments == [] then None
    else if payments[|payments| - 1].id == id then Some(|payments| - 1)
    else
      var k := FindPayment(payments[..|payments| - 1], id);
      assert forall i :: 0 <= i < |payments| - 1 ==> payments[..|payments| - 1][i] == payments[i];
      k
  }

  /** The newest invoice of a PI that is not Cancelled, if any. */
  function LiveInvoiceFor(invoices: seq<Invoice>, piId: nat): (r: Option<nat>)
    ensures r.None? <==> forall i :: 0 <= i < |invoices| ==> !(invoices[i].piId == piId && invoices[i].status != InvoiceCancelled)
  {
    if invoices == [] then None
    else
      var last := invoices[|invoices| - 1];
      if last.piId == piId && last.status != InvoiceCancelled then Some(last.id)
      else
        var r := LiveInvoiceFor(invoices[..|invoices| - 1], piId);
        assert forall i :: 0 <= i < |invoices| - 1 ==> invoices[..|invoices| - 1][i] == invoices[i];
        r
  }

  // ------------------------------------------------------------- numbering

  /** The id of the highest-id row; 0 for an empty table. */
  function LastInvoiceId(invoices: seq<Invoice>): nat
  {
    if invoices == [] then 0 else invoices[|invoices| - 1].id
  }

  /** `_invoice_no_next`: "INV-" and the zero-padded number after the last id. */
  function InvoiceNoNext(invoices: seq<Invoice>): string
  {
    NextCode("INV-", if invoices == [] then None else Some(LastInvoiceId(invoices)))
  }

  lemma InvoiceNoIsNextId(invoices: seq<Invoice>)
    ensures DigitsValue(InvoiceNoNext(invoices)[4..]) == LastInvoiceId(invoices) + 1
  {
    NextCodeNumber("INV-", if invoices == [] then None else Some(LastInvoiceId(invoices)));
  }

  /** `due_date = invoice_date + credit_days`, a missing (or zero) credit period counting as 0. */
  function DueDate(invoiceDate: int, creditDays: Option<int>): (d: int)
    ensures creditDays.None? ==> d == invoiceDate
  {
    invoiceDate + (if creditDays.Some? then creditDays.value else 0)
  }

  // ---------------------------------------------------------------- ledger

  predicate InvoiceIdsAscending(invoices: seq<Invoice>)
  {
    (forall i :: 0 <= i < |invoices| ==> invoices[i].id >= 1) &&
    (forall i, j :: 0 <= i < j < |invoices| ==> invoices[i].id < invoices[j].id)
  }

  predicate PaymentIdsAscending(payments: seq<Payment>)
  {
    (forall i :: 0 <= i < |payments| ==> payments[i].id >= 1) &&
    (forall i, j :: 0 <= i < j < |payments| ==> payments[i].id < payments[j].id)
  }

  /** At most one invoice per PI that is not Cancelled. */
  predicate OneLivePerPi(invoices: seq<Invoice>)
  {
    forall i, j :: 0 <= i < j < |invoices| && invoices[i].piId == invoices[j].piId ==>
      invoices[i].status == InvoiceCancelled || invoices[j].status == InvoiceCancelled
  }

  /** Every payment points at an invoice id already handed out. */
  predicate PaymentsReferToInvoices(invoices: seq<Invoice>, payments: seq<Payment>)
  {
    forall j :: 0 <= j < |payments| ==> payments[j].invoiceId <= LastInvoiceId(invoices)
  }

  /**
   * The collection ceiling: what counts towards an invoice never exceeds its
   * total (an invoice whose total is not positive accepts no payment at all).
   */
  predicate WithinTotal(inv: Invoice, payments: seq<Payment>)
  {
    Collected(payments, inv.id) == 0.0 || Collected(payments, inv.id) <= inv.totalAmount
  }

  predicate AllWithinTotal(invoices: seq<Invoice>, payments: seq<Payment>)
  {
    forall i :: 0 <= i < |invoices| ==> WithinTotal(invoices[i], payments)
  }

  /** The invoices and invoice_payments tables of one tenant. */
  class InvoiceBook {
    var invoices: seq<Invoice>
    var payments: seq<Payment>

    predicate Valid()
      reads this
    {
      InvoiceIdsAscending(invoices) && PaymentIdsAscending(payments) &&
      PositiveAmounts(payments) && PaymentsReferToInvoices(invoices, payments) &&
      AllWithinTotal(invoices, payments)
    }

    constructor ()
      ensures invoices == [] && payments == [] && Valid()
    {
      invoices, payments := [], [];
    }
  }

  /** A new invoice has collected nothing yet: no payment can point at an id not yet handed out. */
  lemma NewInvoiceCollectsNothing(invoices: seq<Invoice>, payments: seq<Payment>, inv: Invoice)
    requires PaymentsReferToInvoices(invoices, payments) && inv.id > LastInvoiceId(invoices)
    ensures Collected(payments, inv.id) == 0.0 && WithinTotal(inv, payments)
  {
    NothingCollected(payments, inv.id);
  }

  /** Why `create_invoice_from_pi` refused, or the invoice it created. */
  datatype InvoiceOutcome =
    | InvoiceCreated(inv: Invoice)
    | PiNotFound
    | InvoiceForbidden
    | InvoiceNotRequested
    | PiIsCancelled
    | PiNotIssued
    | InvoiceExists(existingId: nat)

  /** The PI fields a new invoice copies unchanged. */
  predicate CopiesPi(inv: Invoice, pi: ProformaInvoice)
  {
    inv.piId == pi.id && inv.quoteId == pi.quoteId && inv.clientId == pi.clientId && inv.currency == pi.currency &&
    inv.subtotal == pi.subtotal && inv.discount == pi.discount && inv.tax == pi.tax &&
    inv.cgst == pi.cgst && inv.sgst == pi.sgst && inv.igst == pi.igst &&
    inv.totalAmount == pi.totalAmount && inv.terms == pi.terms
  }

  /**
   * `create_invoice_from_pi`: the quote's invoice request must be Pending and
   * the PI Issued (not Cancelled) with no standing invoice; the Unpaid invoice
   * copies the PI, the PI becomes Converted and the request Approved. The PI
   * row has no credit_days column, so the credit period is always 0.
   */
  method CreateInvoiceFromPi(book: InvoiceBook, pis: ProformaBook, q: Quote, piId: int, canAccess: bool, userId: int, today: int, now: int)
    returns (outcome: InvoiceOutcome)
    requires book.Valid() && pis.Valid()
    modifies book, pis, q`invoiceRequestStatus, q`invoiceGeneratedAt, q`invoiceGeneratedBy
    ensures book.Valid() && pis.Valid() && book.payments == old(book.payments)
    ensures old(OneLivePerPi(book.invoices)) ==> OneLivePerPi(book.invoices)
    ensures FindPi(old(pis.pis), piId).None? ==> outcome == PiNotFound
    ensures FindPi(old(pis.pis), piId).Some? && !canAccess ==> outcome == InvoiceForbidden
    ensures outcome.InvoiceExists? ==> LiveInvoiceFor(old(book.invoices), piId as nat) == Some(outcome.existingId)
    ensures outcome.InvoiceCreated? <==>
              FindPi(old(pis.pis), piId).Some? && canAccess && old(q.invoiceRequestStatus) == RequestPending &&
              old(pis.pis)[FindPi(old(pis.pis), piId).value].status == PiIssued &&
              LiveInvoiceFor(old(book.invoices), piId as nat).None?
    ensures !outcome.InvoiceCreated? ==> book.invoices == old(book.invoices) && pis.pis == old(pis.pis) && unchanged(q)
    ensures outcome.InvoiceCreated? ==>
              var k := FindPi(old(pis.pis), piId).value;
              var inv := outcome.inv;
              book.invoices == old(book.invoices) + [inv] && CopiesPi(inv, old(pis.pis)[k]) &&
              inv.id == LastInvoiceId(old(book.invoices)) + 1 && inv.invoiceNo == InvoiceNoNext(old(book.invoices)) &&
              inv.invoiceDate == today && inv.creditDays == 0 && inv.dueDate == today &&
              inv.status == Unpaid && inv.createdBy == userId &&
              pis.pis == old(pis.pis)[k := old(pis.pis)[k].(status := PiConverted)] &&
              q.invoiceRequestStatus == RequestApproved && q.invoiceGeneratedAt == Some(now) && q.invoiceGeneratedBy == Some(userId)
  {
    var found := FindPi(pis.pis, piId);
    if found.None? {
      return PiNotFound;
    }
    var k := found.value;
    var pi := pis.pis[k];
    if !canAccess {
      return InvoiceForbidden;
    }
    if q.invoiceRequestStatus != RequestPending {
      return InvoiceNotRequested;
    }
    if pi.status == PiCancelled {
      return PiIsCancelled;
    }
    if pi.status != PiIssued {
      return PiNotIssued;
    }
    var existing := LiveInvoiceFor(book.invoices, pi.id);
    if existing.Some? {
      return InvoiceExists(existing.value);
    }
    var inv := Invoice(
      LastInvoiceId(book.invoices) + 1, InvoiceNoNext(book.invoices), today, 0, DueDate(today, None),
      pi.id, pi.quoteId, pi.clientId, pi.currency,
      pi.subtotal, pi.discount, pi.tax, pi.cgst, pi.sgst, pi.igst,
      pi.totalAmount, pi.terms, Unpaid, userId);
    ConvertKeepsPisValid(pis.pis, k);
    pis.pis := pis.pis[k := pi.(status := PiConverted)];
    q.invoiceRequestStatus := RequestApproved;
    q.invoiceGeneratedAt := Some(now);
    q.invoiceGeneratedBy := Some(userId);
    AppendInvoiceKeepsValid(book.invoices, book.payments, inv);
    book.invoices := book.invoices + [inv];
    outcome := InvoiceCreated(inv);
  }

  /** Converting an Issued PI keeps it standing, so the PI register stays valid. */
  lemma ConvertKeepsPisValid(pis: seq<ProformaInvoice>, k: nat)
    requires IdsAscending(pis) && OneLivePerQuote(pis) && k < |pis| && pis[k].status == PiIssued
    ensures IdsAscending(pis[k := pis[k].(status := PiConverted)]) && OneLivePerQuote(pis[k := pis[k].(status := PiConverted)])
  {
    var pis2 := pis[k := pis[k].(status := PiConverted)];
    assert forall i :: 0 <= i < |pis| ==> pis2[i].id == pis[i].id && pis2[i].quoteId == pis[i].quoteId && (Live(pis2[i]) <==> Live(pis[i]));
  }

  lemma AppendInvoiceKeepsValid(invoices: seq<Invoice>, payments: seq<Payment>, inv: Invoice)
    requires InvoiceIdsAscending(invoices) && PaymentsReferToInvoices(invoices, payments)
    requires AllWithinTotal(invoices, payments)
    requires inv.id == LastInvoiceId(invoices) + 1 && LiveInvoiceFor(invoices, inv.piId).None?
    ensures InvoiceIdsAscending(invoices + [inv])
    ensures OneLivePerPi(invoices) ==> OneLivePerPi(invoices + [inv])
    ensures PaymentsReferToInvoices(invoices + [inv], payments) && AllWithinTotal(invoices + [inv], payments)
  {
    NewInvoiceCollectsNothing(invoices, payments, inv);
    var s := invoices + [inv];
    assert forall i :: 0 <= i < |invoices| ==> s[i] == invoices[i];
    if invoices != [] {
      assert forall i :: 0 <= i < |invoices| ==> invoices[i].id <= LastInvoiceId(invoices);
    }
  }
}
