/**
 * Proforma invoices (app/proforma/routes.py, app/models.py ProformaInvoice):
 * Finance turns a Sent, confirmed quote whose PI was requested into one
 * Issued PI that copies the quote's money fields, and closes the request.
 */
module Proforma {
  import opened Wrappers
  import opened Numbers
  import opened Pricing
  import opened Accounts
  import opened Quotes

  datatype PiStatus = PiDraft | PiIssued | PiCancelled | PiConverted

  datatype ProformaInvoice = ProformaInvoice(
    id: nat, piNo: string, piDate: int, quoteId: int, clientId: Option<int>,
    currency: string, subtotal: real, discount: Option<real>,
    tax: real, cgst: real, sgst: real, igst: real, totalAmount: real,
    terms: string, status: PiStatus, createdBy: int)

  /** Ids grow with insertion order and start at 1. */
  predicate IdsAscending(pis: seq<ProformaInvoice>)
  {
    (forall i :: 0 <= i < |pis| ==> pis[i].id >= 1) &&
    (forall i, j :: 0 <= i < j < |pis| ==> pis[i].id < pis[j].id)
  }

  /** A PI that is not Cancelled still stands for its quote. */
  predicate Live(p: ProformaInvoice)
  {
    p.status != PiCancelled
  }

  /** At most one standing PI per quote. */
  predicate OneLivePerQuote(pis: seq<ProformaInvoice>)
  {
    forall i, j :: 0 <= i < j < |pis| && pis[i].quoteId == pis[j].quoteId ==> !Live(pis[i]) || !Live(pis[j])
  }

  /** The id of the highest-id row, i.e. `order_by(id.desc()).first()`. */
  function LastId(pis: seq<ProformaInvoice>): (r: Option<nat>)
    ensures r.Some? <==> pis != []
  {
    if pis == [] then None else Some(pis[|pis| - 1].id)
  }

  /** `_pi_no_next`: "PI-" and the zero-padded number after the last id (1 for the first PI). */
  function PiNoNext(pis: seq<ProformaInvoice>): string
  {
    NextCode("PI-", LastId(pis))
  }

  function NextId(pis: seq<ProformaInvoice>): (n: nat)
    requires IdsAscending(pis)
    ensures n >= 1 && forall i :: 0 <= i < |pis| ==> pis[i].id < n
  {
    if pis == [] then 1 else pis[|pis| - 1].id + 1
  }

  /** The newest standing PI of a quote, if any. */
  function LiveFor(pis: seq<ProformaInvoice>, quoteId: int): (r: Option<nat>)
    ensures r.None? <==> forall i :: 0 <= i < |pis| ==> !(pis[i].quoteId == quoteId && Live(pis[i]))
    ensures r.Some? ==> exists i :: 0 <= i < |pis| && pis[i].quoteId == quoteId && Live(pis[i]) && pis[i].id == r.value
  {
    if pis == [] then None
    else
      var last := pis[|pis| - 1];
      if last.quoteId == quoteId && Live(last) then Some(last.id)
      else
        var r := LiveFor(pis[..|pis| - 1], quoteId);
        assert forall i :: 0 <= i < |pis| - 1 ==> pis[..|pis| - 1][i] == pis[i];
        r
  }

  /** `ProformaInvoice.query.get_or_404(pi_id)`: the position of the PI with that id. */
  function FindPi(pis: seq<ProformaInvoice>, id: int): (k: Option<nat>)
    ensures k.Some? ==> k.value < |pis| && pis[k.value].id == id
    ensures k.None? ==> forall i :: 0 <= i < |pis| ==> pis[i].id != id
  {
    if pis == [] then None
    else if pis[|pis| - 1].id == id then Some(|pis| - 1)
    else
      var k := FindPi(pis[..|pis| - 1], id);
      assert forall i :: 0 <= i < |pis| - 1 ==> pis[..|pis| - 1][i] == pis[i];
      k
  }

  /** The number in a new PI's code is the id the new row gets. */
  lemma PiNoIsNextId(pis: seq<ProformaInvoice>)
    requires IdsAscending(pis)
    ensures DigitsValue(PiNoNext(pis)[3..]) == NextId(pis)
  {
    NextCodeNumber("PI-", LastId(pis));
  }

  /**
   * `_can_access_quote` of the proforma routes: quotes.view_all or
   * proforma.view_all, the quote's creator, or an opportunity owner in the
   * user's team (self included).
   */
  predicate CanAccessPi(u: User, createdBy: int, oppOwner: Option<int>, team: set<int>)
  {
    CanAccessQuote(HasPerm(u, "quotes.view_all") || HasPerm(u, "proforma.view_all"), u.id, createdBy, oppOwner, team)
  }

  /** The quote fields a new PI copies unchanged: client, currency, amounts and taxes, terms. */
  predicate CopiesQuote(pi: ProformaInvoice, q: Quote)
    reads q`clientId, q`ctx, q`subtotal, q`discount, q`tax, q`totalAmount, q`proposalTerms
  {
    pi.clientId == q.clientId && pi.currency == q.ctx.currency &&
    pi.subtotal == q.subtotal && pi.discount == q.discount &&
    pi.tax == q.tax.total && pi.cgst == q.tax.cgst && pi.sgst == q.tax.sgst && pi.igst == q.tax.igst &&
    pi.totalAmount == q.totalAmount && pi.terms == q.proposalTerms
  }

  /** A PI copied from a consistent quote balances: its taxes add up and its total is subtotal − discount + tax. */
  lemma PiAmountsBalance(pi: ProformaInvoice, q: Quote)
    requires q.Consistent() && CopiesQuote(pi, q)
    ensures pi.tax == pi.cgst + pi.sgst + pi.igst
    ensures pi.totalAmount == pi.subtotal - D(FromOption(pi.discount), 0.0) + pi.tax
  {
  }

  /** Appending a PI with the next id for a quote without a standing PI keeps the register valid. */
  lemma AppendPiKeepsValid(pis: seq<ProformaInvoice>, pi: ProformaInvoice)
    requires IdsAscending(pis) && OneLivePerQuote(pis)
    requires pi.id == NextId(pis) && LiveFor(pis, pi.quoteId).None?
    ensures IdsAscending(pis + [pi]) && OneLivePerQuote(pis + [pi])
  {
    var ps := pis + [pi];
    forall i, j | 0 <= i < j < |ps| ensures ps[i].id < ps[j].id {
      assert ps[i] == pis[i];
    }
    forall i, j | 0 <= i < j < |ps| && ps[i].quoteId == ps[j].quoteId ensures !Live(ps[i]) || !Live(ps[j]) {
      assert ps[i] == pis[i];
      if j < |pis| {
        assert ps[j] == pis[j];
      }
    }
  }

  /** Why `create_pi_from_quote` refused, or the PI it created. */
  datatype PiOutcome =
    | PiCreated(pi: ProformaInvoice)
    | PiForbidden
    | ProposalNotConfirmed
    | QuoteNotSent
    | PiNotRequested
    | PiExists(existingId: nat)

  /** The PI register (the proforma_invoices table). */
  class ProformaBook {
    var pis: seq<ProformaInvoice>

    predicate Valid()
      reads this
    {
      IdsAscending(pis) && OneLivePerQuote(pis)
    }

    constructor ()
      ensures pis == [] && Valid()
    {
      pis := [];
    }
  }

  /**
   * `create_pi_from_quote`: after the access check, the proposal must be
   * confirmed, the quote Sent and its PI request Pending, and no standing PI
   * may exist; then an Issued PI copies the quote's money fields and the
   * request becomes Approved with the generating user and time.
   */
  method CreatePiFromQuote(book: ProformaBook, q: Quote, quoteId: int, canAccess: bool, userId: int, today: int, now: int)
    returns (outcome: PiOutcome)
    requires book.Valid()
    modifies book, q`piRequestStatus, q`piGeneratedAt, q`piGeneratedBy
    ensures book.Valid()
    ensures !canAccess ==> outcome == PiForbidden
    ensures canAccess && old(q.proposalConfirmedAt).None? ==> outcome == ProposalNotConfirmed
    ensures canAccess && old(q.proposalConfirmedAt).Some? && old(q.status) != SENT ==> outcome == QuoteNotSent
    ensures canAccess && old(q.proposalConfirmedAt).Some? && old(q.status) == SENT && old(q.piRequestStatus) != RequestPending
            ==> outcome == PiNotRequested
    ensures outcome.PiExists? ==> LiveFor(old(book.pis), quoteId) == Some(outcome.existingId)
    ensures outcome.PiCreated? <==>
              canAccess && old(q.proposalConfirmedAt).Some? && old(q.status) == SENT &&
              old(q.piRequestStatus) == RequestPending && LiveFor(old(book.pis), quoteId).None?
    ensures !outcome.PiCreated? ==> book.pis == old(book.pis) && unchanged(q)
    ensures outcome.PiCreated? ==>
              book.pis == old(book.pis) + [outcome.pi] && CopiesQuote(outcome.pi, q) &&
              outcome.pi.id == NextId(old(book.pis)) && outcome.pi.piNo == PiNoNext(old(book.pis)) &&
              outcome.pi.piDate == today && outcome.pi.quoteId == quoteId &&
              outcome.pi.status == PiIssued && outcome.pi.createdBy == userId &&
              q.piRequestStatus == RequestApproved && q.piGeneratedAt == Some(now) && q.piGeneratedBy == Some(userId)
  {
    if !canAccess {
      return PiForbidden;
    }
    if q.proposalConfirmedAt.None? {
      return ProposalNotConfirmed;
    }
    if q.status != SENT {
      return QuoteNotSent;
    }
    if q.piRequestStatus != RequestPending {
      return PiNotRequested;
    }
    var existing := LiveFor(book.pis, quoteId);
    if existing.Some? {
      return PiExists(existing.value);
    }
    var pi := IssuePi(book, q, quoteId, userId, today, now);
    outcome := PiCreated(pi);
  }

  /** The write half of `create_pi_from_quote`: the Issued PI is appended and the quote's PI request approved. */
  method IssuePi(book: ProformaBook, q: Quote, quoteId: int, userId: int, today: int, now: int)
    returns (pi: ProformaInvoice)
    requires book.Valid() && LiveFor(book.pis, quoteId).None?
    modifies book, q`piRequestStatus, q`piGeneratedAt, q`piGeneratedBy
    ensures book.Valid()
    ensures book.pis == old(book.pis) + [pi] && CopiesQuote(pi, q) &&
            pi.id == NextId(old(book.pis)) && pi.piNo == PiNoNext(old(book.pis)) &&
            pi.piDate == today && pi.quoteId == quoteId && pi.status == PiIssued && pi.createdBy == userId
    ensures q.piRequestStatus == RequestApproved && q.piGeneratedAt == Some(now) && q.piGeneratedBy == Some(userId)
  {
    pi := ProformaInvoice(
      NextId(book.pis), PiNoNext(book.pis), today, quoteId, q.clientId,
      q.ctx.currency, q.subtotal, q.discount,
      q.tax.total, q.tax.cgst, q.tax.sgst, q.tax.igst, q.totalAmount,
      q.proposalTerms, PiIssued, userId);
    AppendPiKeepsValid(book.pis, pi);
    q.piRequestStatus := RequestApproved;
    q.piGeneratedAt := Some(now);
    q.piGeneratedBy := Some(userId);
    book.pis := book.pis + [pi];
  }
}
