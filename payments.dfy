/**
 * Payment collection against an invoice (app/payments/routes.py): Sales
 * records payments, each validated so that what counts towards the invoice
 * never exceeds its total; Finance verifies (re-validating) or rejects them.
 */
module Payments {
  import opened Wrappers
  import opened Text
  import opened Numbers
  import opened Accounts
  import opened Invoicing

  /** The verdict of `validate_collection`. */
  datatype Collection = CollectionOk | NotPositive | ExceedsInvoice(remaining: real)

  /**
   * `validate_collection`: a non-positive amount is refused; so is one that
   * would take the counted payments (without `exclude`) past the total;
   * landing exactly on the total is allowed.
   */
  function ValidateCollection(inv: Invoice, payments: seq<Payment>, amount: real, exclude: Option<nat>): (v: Collection)
    ensures v == CollectionOk <==> amount > 0.0 && CurrentCollected(payments, inv.id, exclude) + amount <= inv.totalAmount
    ensures v.ExceedsInvoice? ==> v.remaining == inv.totalAmount - CurrentCollected(payments, inv.id, exclude) && v.remaining < amount
  {
    var current := CurrentCollected(payments, inv.id, exclude);
    if amount <= 0.0 then NotPositive
    else if current + amount > inv.totalAmount then ExceedsInvoice(inv.totalAmount - current)
    else CollectionOk
  }

  /** `ensure_owner_or_admin`: the opportunity's owner or a payments.admin holder. */
  predicate OwnerOrAdmin(u: User, oppOwner: Option<int>)
  {
    oppOwner == Some(u.id) || HasPerm(u, "payments.admin")
  }

  /** `ensure_finance_or_admin`. */
  predicate FinanceOrAdmin(u: User)
  {
    HasPerm(u, "payments.verify") || HasPerm(u, "payments.admin")
  }

  /** The amount field: commas removed, trimmed, then read as a Decimal. */
  function ParseAmount(raw: string): Option<real>
  {
    ParseDecimal(Strip(RemoveCommas(raw)))
  }

  /** `reference`: trimmed, an empty one stored as NULL. */
  function Reference(raw: string): (r: Option<string>)
    ensures r.Some? ==> r.value != [] && r.value == Strip(raw)
  {
    if Strip(raw) == [] then None else Some(Strip(raw))
  }

  datatype AddOutcome =
    | PaymentAdded(payment: Payment)
    | AddNotFound
    | AddForbidden
    | BadPaymentDate
    | TransferTypeRequired
    | BadAmount
    | AddRefused(reason: Collection)

  function LastPaymentId(payments: seq<Payment>): nat
  {
    if payments == [] then 0 else payments[|payments| - 1].id
  }

  /**
   * The POST of `invoice_payments`: after the access checks, a payment with a
   * valid date, a non-blank transfer type and an amount that passes
   * `validate_collection` is stored as Pending; anything else stores nothing.
   */
  method AddPayment(book: InvoiceBook, invoiceId: int, user: User, oppOwner: Option<int>, paymentDate: Option<int>,
                    amountRaw: string, transferTypeRaw: string, referenceRaw: string)
    returns (outcome: AddOutcome)
    requires book.Valid()
    modifies book`payments
    ensures book.Valid()
    ensures !outcome.PaymentAdded? ==> book.payments == old(book.payments)
    ensures outcome.PaymentAdded? <==>
              FindInvoice(book.invoices, invoiceId).Some? && OwnerOrAdmin(user, oppOwner) &&
              (HasPerm(user, "payments.add") || HasPerm(user, "payments.admin")) &&
              paymentDate.Some? && Strip(transferTypeRaw) != [] && ParseAmount(amountRaw).Some? &&
              ValidateCollection(book.invoices[FindInvoice(book.invoices, invoiceId).value], old(book.payments),
                                 ParseAmount(amountRaw).value, None) == CollectionOk
    ensures outcome.PaymentAdded? ==>
              var p := outcome.payment;
              book.payments == old(book.payments) + [p] &&
              p.id == LastPaymentId(old(book.payments)) + 1 && p.invoiceId == invoiceId &&
              p.paymentDate == paymentDate.value && p.amount == ParseAmount(amountRaw).value &&
              p.transferType == Strip(transferTypeRaw) && p.reference == Reference(referenceRaw) &&
              p.status == PaymentPending && p.createdBy == user.id &&
              p.verifiedBy.None? && p.verifiedAt.None? && p.remarks.None?
    ensures outcome.AddRefused? ==> outcome.reason != CollectionOk
  {
    var found := FindInvoice(book.invoices, invoiceId);
    if found.None? {
      return AddNotFound;
    }
    var inv := book.invoices[found.value];
    if !OwnerOrAdmin(user, oppOwner) || !(HasPerm(user, "payments.add") || HasPerm(user, "payments.admin")) {
      return AddForbidden;
    }
    if paymentDate.None? {
      return BadPaymentDate;
    }
    var transferType := Strip(transferTypeRaw);
    if transferType == [] {
      return TransferTypeRequired;
    }
    var amount := ParseAmount(amountRaw);
    if amount.None? {
      return BadAmount;
    }
    var verdict := ValidateCollection(inv, book.payments, amount.value, None);
    if verdict != CollectionOk {
      return AddRefused(verdict);
    }
    var p := Payment(LastPaymentId(book.payments) + 1, inv.id, paymentDate.value, amount.value, transferType,
                     Reference(referenceRaw), PaymentPending, user.id, None, None, None);
    AppendPaymentKeepsValid(book.invoices, book.payments, found.value, p);
    book.payments := book.payments + [p];
    outcome := PaymentAdded(p);
  }

  lemma AppendPaymentKeepsValid(invoices: seq<Invoice>, payments: seq<Payment>, k: nat, p: Payment)
    requires InvoiceIdsAscending(invoices) && PaymentIdsAscending(payments) && PositiveAmounts(payments)
    requires PaymentsReferToInvoices(invoices, payments) && AllWithinTotal(invoices, payments)
    requires k < |invoices| && p.invoiceId == invoices[k].id && p.id == LastPaymentId(payments) + 1
    requires ValidateCollection(invoices[k], payments, p.amount, None) == CollectionOk
    ensures PaymentIdsAscending(payments + [p]) && PositiveAmounts(payments + [p])
    ensures PaymentsReferToInvoices(invoices, payments + [p]) && AllWithinTotal(invoices, payments + [p])
  {
    var s := payments + [p];
    assert forall j :: 0 <= j < |payments| ==> s[j] == payments[j];
    if payments != [] {
      assert forall j :: 0 <= j < |payments| ==> payments[j].id <= LastPaymentId(payments);
    }
    assert invoices[k].id <= LastInvoiceId(invoices);
    forall i | 0 <= i < |invoices|
      ensures WithinTotal(invoices[i], s)
    {
      CollectedAppend(payments, p, invoices[i].id, None);
      if invoices[i].id != p.invoiceId {
        assert Collected(s, invoices[i].id) == Collected(payments, invoices[i].id);
      }
    }
  }

  datatype ActionOutcome =
    | PaymentVerifiedOutcome(invoiceStatus: InvoiceStatus)
    | PaymentRejectedOutcome
    | ActionForbidden
    | PaymentNotFound
    | InvoiceNotFound
    | InvalidAction
    | VerifyRefused(reason: Collection)

  /** The invoice status a verification leaves: Paid once nothing remains, else Partially Paid. */
  function StatusAfterVerify(inv: Invoice, payments: seq<Payment>): (s: InvoiceStatus)
    ensures s == Paid <==> Remaining(inv, payments) <= 0.0
    ensures s == Paid || s == PartiallyPaid
  {
    if Remaining(inv, payments) <= 0.0 then Paid else PartiallyPaid
  }

  /**
   * `finance_payment_action`: "verify" re-validates the payment against the
   * invoice without itself, marks it Verified and sets the invoice Paid or
   * Partially Paid; "reject" marks it Rejected and leaves the invoice alone.
   * Neither looks at the payment's previous status. Anything else, or a
   * failed validation, changes nothing.
   */
  method PaymentAction(book: InvoiceBook, paymentId: int, user: User, action: string, remarksRaw: string, now: int)
    returns (outcome: ActionOutcome)
    requires book.Valid()
    modifies book
    ensures book.Valid()
    ensures !FinanceOrAdmin(user) ==> outcome == ActionForbidden
    ensures FinanceOrAdmin(user) && FindPayment(old(book.payments), paymentId).None? ==> outcome == PaymentNotFound
    ensures FinanceOrAdmin(user) && FindPayment(old(book.payments), paymentId).Some? && action != "verify" && action != "reject"
            ==> outcome == InvalidAction
    ensures !(outcome.PaymentVerifiedOutcome? || outcome.PaymentRejectedOutcome?) ==> unchanged(book)
    ensures outcome.PaymentRejectedOutcome? ==>
              var k := FindPayment(old(book.payments), paymentId).value;
              FinanceOrAdmin(user) && action == "reject" && book.invoices == old(book.invoices) &&
              book.payments == old(book.payments)[k := old(book.payments)[k].(status := PaymentRejected,
                verifiedBy := Some(user.id), verifiedAt := Some(now), remarks := Reference(remarksRaw))]
    ensures outcome.PaymentVerifiedOutcome? ==>
              var k := FindPayment(old(book.payments), paymentId).value;
              var p := old(book.payments)[k];
              var fi := FindInvoice(old(book.invoices), p.invoiceId);
              fi.Some? && var i := fi.value;
              FinanceOrAdmin(user) && action == "verify" &&
              ValidateCollection(old(book.invoices)[i], old(book.payments), p.amount, Some(p.id)) == CollectionOk &&
              book.payments == old(book.payments)[k := p.(status := PaymentVerified,
                verifiedBy := Some(user.id), verifiedAt := Some(now), remarks := Reference(remarksRaw))] &&
              outcome.invoiceStatus == StatusAfterVerify(old(book.invoices)[i], book.payments) &&
              book.invoices == old(book.invoices)[i := old(book.invoices)[i].(status := outcome.invoiceStatus)] &&
              (outcome.invoiceStatus == Paid ==> Collected(book.payments, p.invoiceId) == old(book.invoices)[i].totalAmount)
  {
    if !FinanceOrAdmin(user) {
      return ActionForbidden;
    }
    var found := FindPayment(book.payments, paymentId);
    if found.None? {
      return PaymentNotFound;
    }
    var k := found.value;
    var p := book.payments[k];
    var remarks := Reference(remarksRaw);
    if action == "verify" {
      var fi := FindInvoice(book.invoices, p.invoiceId);
      if fi.None? {
        return InvoiceNotFound;
      }
      var i := fi.value;
      var inv := book.invoices[i];
      var verdict := ValidateCollection(inv, book.payments, p.amount, Some(p.id));
      if verdict != CollectionOk {
        return VerifyRefused(verdict);
      }
      var p2 := p.(status := PaymentVerified, verifiedBy := Some(user.id), verifiedAt := Some(now), remarks := remarks);
      VerifyKeepsValid(book.invoices, book.payments, k, i, p2);
      book.payments := book.payments[k := p2];
      var st := StatusAfterVerify(inv, book.payments);
      StatusKeepsValid(book.invoices, book.payments, i, st);
      book.invoices := book.invoices[i := inv.(status := st)];
      outcome := PaymentVerifiedOutcome(st);
    } else if action == "reject" {
      var p2 := p.(status := PaymentRejected, verifiedBy := Some(user.id), verifiedAt := Some(now), remarks := remarks);
      RejectKeepsValid(book.invoices, book.payments, k, p2);
      book.payments := book.payments[k := p2];
      outcome := PaymentRejectedOutcome;
    } else {
      return InvalidAction;
    }
  }

  /** Verifying a payment that passed re-validation keeps every invoice within its total. */
  lemma VerifyKeepsValid(invoices: seq<Invoice>, payments: seq<Payment>, k: nat, i: nat, p2: Payment)
    requires InvoiceIdsAscending(invoices) && PaymentIdsAscending(payments) && PositiveAmounts(payments)
    requires PaymentsReferToInvoices(invoices, payments) && AllWithinTotal(invoices, payments)
    requires k < |payments| && i < |invoices| && invoices[i].id == payments[k].invoiceId
    requires ValidateCollection(invoices[i], payments, payments[k].amount, Some(payments[k].id)) == CollectionOk
    requires p2 == payments[k].(status := PaymentVerified, verifiedBy := p2.verifiedBy, verifiedAt := p2.verifiedAt, remarks := p2.remarks)
    ensures PaymentIdsAscending(payments[k := p2]) && PositiveAmounts(payments[k := p2])
    ensures PaymentsReferToInvoices(invoices, payments[k := p2]) && AllWithinTotal(invoices, payments[k := p2])
    ensures 0.0 < Collected(payments[k := p2], invoices[i].id) <= invoices[i].totalAmount
  {
    var s := payments[k := p2];
    assert forall j :: 0 <= j < |payments| ==> s[j].id == payments[j].id && s[j].amount == payments[j].amount && s[j].invoiceId == payments[j].invoiceId;
    ExcludingOne(payments, k, invoices[i].id);
    CollectedUpdate(payments, k, p2, invoices[i].id, None);
    CollectedNonNegative(payments, invoices[i].id, Some(payments[k].id));
    forall x | 0 <= x < |invoices|
      ensures WithinTotal(invoices[x], s)
    {
      CollectedUpdate(payments, k, p2, invoices[x].id, None);
      if x != i {
        assert invoices[x].id != invoices[i].id;
        assert WithinTotal(invoices[x], payments);
      }
    }
  }

  /** Rejecting a payment only takes its share out, which keeps every invoice within its total. */
  lemma RejectKeepsValid(invoices: seq<Invoice>, payments: seq<Payment>, k: nat, p2: Payment)
    requires PaymentIdsAscending(payments) && PositiveAmounts(payments)
    requires PaymentsReferToInvoices(invoices, payments) && AllWithinTotal(invoices, payments)
    requires k < |payments|
    requires p2 == payments[k].(status := PaymentRejected, verifiedBy := p2.verifiedBy, verifiedAt := p2.verifiedAt, remarks := p2.remarks)
    ensures PaymentIdsAscending(payments[k := p2]) && PositiveAmounts(payments[k := p2])
    ensures PaymentsReferToInvoices(invoices, payments[k := p2]) && AllWithinTotal(invoices, payments[k := p2])
  {
    var s := payments[k := p2];
    assert forall j :: 0 <= j < |payments| ==> s[j].id == payments[j].id && s[j].amount == payments[j].amount && s[j].invoiceId == payments[j].invoiceId;
    assert PositiveAmounts(s);
    forall x | 0 <= x < |invoices|
      ensures WithinTotal(invoices[x], s)
    {
      assert WithinTotal(invoices[x], payments);
      CollectedUpdate(payments, k, p2, invoices[x].id, None);
      CollectedNonNegative(s, invoices[x].id, None);
    }
  }

  /** The invoice status written after a verification changes no id or total. */
  lemma StatusKeepsValid(invoices: seq<Invoice>, payments: seq<Payment>, i: nat, st: InvoiceStatus)
    requires InvoiceIdsAscending(invoices) && AllWithinTotal(invoices, payments)
    requires PaymentsReferToInvoices(invoices, payments)
    requires i < |invoices|
    ensures InvoiceIdsAscending(invoices[i := invoices[i].(status := st)])
    ensures AllWithinTotal(invoices[i := invoices[i].(status := st)], payments)
    ensures PaymentsReferToInvoices(invoices[i := invoices[i].(status := st)], payments)
  {
    var s := invoices[i := invoices[i].(status := st)];
    assert LastInvoiceId(s) == LastInvoiceId(invoices);
    assert forall j :: 0 <= j < |invoices| ==> s[j].id == invoices[j].id && s[j].totalAmount == invoices[j].totalAmount;
    assert forall j :: 0 <= j < |invoices| ==> WithinTotal(s[j], payments) by {
      forall j | 0 <= j < |invoices| ensures WithinTotal(s[j], payments) {
        assert WithinTotal(invoices[j], payments);
      }
    }
  }
}
