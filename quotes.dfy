/**
 * A quote (app/quotes/routes.py, app/models.py Quote/QuoteItem): its items
 * and totals, its status, its sequential approval rows and the proposal and
 * PI/invoice request flags, with the handlers that change them in place.
 * Database rows arrive as values; "now" and the acting user are parameters.
 */
module Quotes {
  import opened Wrappers
  import opened Text
  import opened Numbers
  import opened Pricing
  import opened Approvals
  import opened Calendar

  /** A quote's status row by name ("Draft", "Pending Approval", …); NoStatus is a NULL status_id. */
  datatype QuoteStatus = NoStatus | Draft | PendingApproval | QuoteApproved | QuoteRejected | Sent | Selected

  /** pi_request_status / invoice_request_status: NULL, "Pending", or "Approved" once Finance generated the document. */
  datatype FinanceRequest = NotRequested | RequestPending | RequestApproved

  const DRAFT := Draft
  const PENDING_APPROVAL := PendingApproval
  const APPROVED := QuoteApproved
  const REJECTED := QuoteRejected
  const SENT := Sent
  const SELECTED := Selected

  /** Pending Approval, Approved, Sent and Selected quotes cannot be edited or re-submitted. */
  predicate Locked(s: QuoteStatus)
  {
    s == PENDING_APPROVAL || s == APPROVED || s == SENT || s == SELECTED
  }

  /** One submitted item block of the edit form. */
  datatype ItemForm = ItemForm(
    target: Option<nat>,  // index of the quote's item the item_id names; None: not digits, unknown, or another quote's
    name: string, qty: Raw, rate: Raw, cycle: string)

  /** The fields the edit form writes onto one item; its amount waits for the recalculation. */
  function ApplyForm(it: Item, f: ItemForm, idx: nat): (r: Item)
    ensures r.amount == it.amount && r.sortOrder == idx + 1
  {
    it.(name := Strip(f.name), qty := Some(D(f.qty, 0.0)), rate := Some(D(f.rate, 0.0)),
        billingCycle := CycleName(NormCycle(f.cycle)), sortOrder := idx + 1)
  }

  /** Whatever the block's cycle text, the item stores an allowed billing cycle. */
  lemma ApplyFormStoresValidCycle(it: Item, f: ItemForm, idx: nat)
    ensures CycleOf(ApplyForm(it, f, idx).billingCycle) == Some(NormCycle(f.cycle))
  {
    NormCycleOfName(NormCycle(f.cycle));
  }

  /** The items after the edit form's blocks are applied in order (a later block for the same item wins). */
  function EditItems(items: seq<Item>, forms: seq<ItemForm>): (r: seq<Item>)
    ensures |r| == |items|
  {
    if forms == [] then items
    else
      var n := |forms| - 1;
      var prev := EditItems(items, forms[..n]);
      var f := forms[n];
      if f.target.Some? && f.target.value < |prev| then prev[f.target.value := ApplyForm(prev[f.target.value], f, n)]
      else prev
  }

  /** The item loop of `edit_quote`: each block in turn overwrites the item it names. */
  method ApplyForms(items: seq<Item>, forms: seq<ItemForm>) returns (its: seq<Item>)
    ensures its == EditItems(items, forms)
  {
    its := items;
    var idx := 0;
    while idx < |forms|
      invariant 0 <= idx <= |forms|
      invariant its == EditItems(items, forms[..idx])
    {
      var f := forms[idx];
      EditItemsStep(items, forms, idx);
      if f.target.Some? && f.target.value < |its| {
        its := its[f.target.value := ApplyForm(its[f.target.value], f, idx)];
      }
      idx := idx + 1;
    }
    assert forms[..idx] == forms;
  }

  /** One more block on top of the ones before it. */
  lemma EditItemsStep(items: seq<Item>, forms: seq<ItemForm>, idx: nat)
    requires idx < |forms|
    ensures var prev, f := EditItems(items, forms[..idx]), forms[idx];
            EditItems(items, forms[..idx + 1])
            == if f.target.Some? && f.target.value < |prev| then prev[f.target.value := ApplyForm(prev[f.target.value], f, idx)]
               else prev
  {
    assert forms[..idx + 1][..idx] == forms[..idx];
  }

  /** An item no block names keeps every field. */
  lemma {:induction false} EditItemsUntargeted(items: seq<Item>, forms: seq<ItemForm>, j: nat)
    requires j < |items| && forall i :: 0 <= i < |forms| ==> forms[i].target != Some(j)
    ensures EditItems(items, forms)[j] == items[j]
  {
    if forms != [] {
      var n := |forms| - 1;
      assert forall i :: 0 <= i < n ==> forms[..n][i] == forms[i];
      EditItemsUntargeted(items, forms[..n], j);
    }
  }

  /** An item takes the values of the last block that names it. */
  lemma {:induction false} EditItemsLastWins(items: seq<Item>, forms: seq<ItemForm>, k: nat)
    requires k < |forms| && forms[k].target.Some? && forms[k].target.value < |items|
    requires forall i :: k < i < |forms| ==> forms[i].target != forms[k].target
    ensures var t := forms[k].target.value;
            var r := EditItems(items, forms)[t];
            r.name == Strip(forms[k].name) && r.qty == Some(D(forms[k].qty, 0.0)) && r.rate == Some(D(forms[k].rate, 0.0))
            && r.billingCycle == CycleName(NormCycle(forms[k].cycle)) && r.sortOrder == k + 1
  {
    var t := forms[k].target.value;
    LastFormApplied(items, forms, k);
    assert EditItems(items, forms)[t] == ApplyForm(EditItems(items, forms[..k])[t], forms[k], k);
  }

  /** The item the last naming block targets is that block applied to the item as it stood before the block. */
  lemma {:induction false} LastFormApplied(items: seq<Item>, forms: seq<ItemForm>, k: nat)
    requires k < |forms| && forms[k].target.Some? && forms[k].target.value < |items|
    requires forall i :: k < i < |forms| ==> forms[i].target != forms[k].target
    ensures var t := forms[k].target.value;
            EditItems(items, forms)[t] == ApplyForm(EditItems(items, forms[..k])[t], forms[k], k)
  {
    var n := |forms| - 1;
    var t := forms[k].target.value;
    if k < n {
      var shorter := forms[..n];
      assert shorter[k] == forms[k] && shorter[..k] == forms[..k];
      forall i | k < i < |shorter| ensures shorter[i].target != shorter[k].target {
        assert shorter[i] == forms[i];
      }
      LastFormApplied(items, shorter, k);
      EditItemsSkips(items, forms, t);
    } else {
      assert forms[..n] == forms[..k];
    }
  }

  /** The last block leaves the items it does not name as they were. */
  lemma EditItemsSkips(items: seq<Item>, forms: seq<ItemForm>, t: nat)
    requires forms != [] && t < |items| && forms[|forms| - 1].target != Some(t)
    ensures EditItems(items, forms)[t] == EditItems(items, forms[..|forms| - 1])[t]
  {
    var prev := EditItems(items, forms[..|forms| - 1]);
    var f := forms[|forms| - 1];
    if f.target.Some? && f.target.value < |prev| {
      assert EditItems(items, forms) == prev[f.target.value := ApplyForm(prev[f.target.value], f, |forms| - 1)];
    }
  }

  /** The item a new version copies: qty and rate read through `_d`, cycle normalised, amount 0. */
  function CopyItem(it: Item): (r: Item)
    ensures r.name == it.name && r.sortOrder == it.sortOrder && r.amount == 0.0
    ensures LineAmount(r) == LineAmount(it)
  {
    NormCycleOfName(NormCycle(it.billingCycle));
    Item(it.name, Some(D(FromOption(it.qty), 0.0)), Some(D(FromOption(it.rate), 0.0)),
         CycleName(NormCycle(it.billingCycle)), 0.0, it.sortOrder)
  }

  function CopyItems(items: seq<Item>): (r: seq<Item>)
    ensures |r| == |items| && forall i :: 0 <= i < |items| ==> r[i] == CopyItem(items[i])
  {
    seq(|items|, i requires 0 <= i < |items| => CopyItem(items[i]))
  }

  /** A copied item set has the same recalculated subtotal as the original. */
  lemma {:induction false} CopyKeepsSubtotal(items: seq<Item>)
    ensures SumAmounts(RecalcItems(CopyItems(items))) == SumAmounts(RecalcItems(items))
  {
    if items != [] {
      var n := |items| - 1;
      assert CopyItems(items)[..n] == CopyItems(items[..n]);
      assert RecalcItems(CopyItems(items))[..n] == RecalcItems(CopyItems(items[..n]));
      assert RecalcItems(items)[..n] == RecalcItems(items[..n]);
      CopyKeepsSubtotal(items[..n]);
    }
  }

  /** The item `create_quote` and `add_item` insert: qty 1, rate 0, ONETIME, amount 0. */
  function DefaultItem(n: nat): (it: Item)
    ensures LineAmount(it) == 0.0
  {
    Item("Item " + ShowNat(n), Some(1.0), Some(0.0), "ONETIME", 0.0, n)
  }

  /** A fresh quote's single default item makes every number zero, taxed or not. */
  lemma DefaultQuoteTotals(n: nat, ctx: TaxContext)
    ensures var t := RecalcTotals([DefaultItem(n)], Some(0.0), ctx);
            t.subtotal == 0.0 && t.total == 0.0 && t.tax == Gst(0.0, 0.0, 0.0, 0.0)
    ensures RecalcItems([DefaultItem(n)]) == [DefaultItem(n)]
    ensures CalculateTax(ctx, 0.0, 0.0) == Gst(0.0, 0.0, 0.0, 0.0)
  {
    NormCycleOfName(OneTime);
    var its := RecalcItems([DefaultItem(n)]);
    assert its[..0] == [];
    assert SumAmounts(its) == 0.0;
    assert D(FromOption(Some(0.0)), 0.0) == 0.0;
  }

  /** How a simple handler ended: 403, a refusal that saves nothing, or done. */
  datatype Verdict = QuoteForbidden | Refused | Done

  datatype OpenOutcome = OppForbidden | OpenBadDate | Opened

  datatype RequestOutcome = RequestForbidden | RequestLocked | AutoApproved | MissingSteps | ApprovalStarted

  datatype ActOutcome = NotFound | ActForbidden | NotPending | NotAllowed | InvalidDecision | Decided

  datatype SaveOutcome = SaveForbidden | InvalidItem | QuoteLocked | BadClosureDate | Saved

  /** `Then` composes: adding two blocks of rows in turn adds their concatenation. */
  lemma ThenThen(a: seq<Approval>, b: seq<Approval>, p: Option<seq<Approval>>)
    ensures Then(a, Then(b, p)) == Then(a + b, p)
  {
    if p.Some? {
      assert a + (b + p.value) == (a + b) + p.value;
    }
  }

  /** One rule of the plan: its rows ahead of the plan for the rules after it, or None without steps. */
  lemma PlanAt(matched: seq<Rule>, i: nat, steps: seq<Step>, start: int)
    requires i < |matched|
    ensures var st := ActiveStepsOf(steps, matched[i].id);
            Plan(matched[i..], steps, start)
            == if st == [] then None else Then(RowsFor(matched[i], st, start), Plan(matched[i + 1..], steps, start + |st|))
  {
    assert matched[i..][0] == matched[i] && matched[i..][1..] == matched[i + 1..];
  }

  /** The inner loop of `request_approval`: one WAITING row per step, `global_step` counting on. */
  method AppendRows(acc: seq<Approval>, r: Rule, st: seq<Step>, globalStep: int) returns (out: seq<Approval>, next: int)
    ensures out == acc + RowsFor(r, st, globalStep) && next == globalStep + |st|
  {
    out, next := acc, globalStep;
    var j := 0;
    while j < |st|
      invariant 0 <= j <= |st| && next == globalStep + j
      invariant out == acc + RowsFor(r, st, globalStep)[..j]
    {
      next := next + 1;
      out := out + [NewRow(r, st[j], next)];
      assert RowsFor(r, st, globalStep)[..j + 1] == RowsFor(r, st, globalStep)[..j] + [NewRow(r, st[j], globalStep + j + 1)];
      j := j + 1;
    }
    assert RowsFor(r, st, globalStep)[..j] == RowsFor(r, st, globalStep);
  }

  /**
   * The row-building loops of `request_approval`: for each matched rule its
   * active steps, one WAITING row each, `global_step` counting across rules.
   * Stops with None at the first rule without steps.
   */
  method BuildRows(matched: seq<Rule>, steps: seq<Step>) returns (rows: Option<seq<Approval>>)
    ensures rows == Plan(matched, steps, 0)
  {
    ghost var full := Plan(matched, steps, 0);
    var acc: seq<Approval> := [];
    var globalStep := 0;
    var i := 0;
    PlanFromStart(matched, steps);
    while i < |matched|
      invariant 0 <= i <= |matched|
      invariant full == Then(acc, Plan(matched[i..], steps, globalStep))
    {
      var r := matched[i];
      var st := ActiveStepsOf(steps, r.id);
      if st == [] {
        BuildStops(full, matched, steps, i, acc, globalStep);
        return None;
      }
      var acc2, g2 := AppendRows(acc, r, st, globalStep);
      BuildStep(full, matched, steps, i, acc, globalStep, acc2, g2);
      acc, globalStep := acc2, g2;
      i := i + 1;
    }
    PlanOfNoRules(matched[i..], steps, globalStep, acc);
    return Some(acc);
  }

  /** One turn of the rule loop: the rule's rows join the accumulated ones, the rest of the plan still ahead. */
  lemma BuildStep(full: Option<seq<Approval>>, matched: seq<Rule>, steps: seq<Step>, i: nat, acc: seq<Approval>, g: int,
                  acc': seq<Approval>, g': int)
    requires i < |matched| && full == Then(acc, Plan(matched[i..], steps, g))
    requires ActiveStepsOf(steps, matched[i].id) != []
    requires acc' == acc + RowsFor(matched[i], ActiveStepsOf(steps, matched[i].id), g)
    requires g' == g + |ActiveStepsOf(steps, matched[i].id)|
    ensures full == Then(acc', Plan(matched[i + 1..], steps, g'))
  {
    var st := ActiveStepsOf(steps, matched[i].id);
    PlanAt(matched, i, steps, g);
    ThenThen(acc, RowsFor(matched[i], st, g), Plan(matched[i + 1..], steps, g'));
  }

  /** A rule without active steps ends the plan. */
  lemma BuildStops(full: Option<seq<Approval>>, matched: seq<Rule>, steps: seq<Step>, i: nat, acc: seq<Approval>, g: int)
    requires i < |matched| && full == Then(acc, Plan(matched[i..], steps, g))
    requires ActiveStepsOf(steps, matched[i].id) == []
    ensures full == None
  {
    PlanAt(matched, i, steps, g);
  }

  /** Before the loop: no rows yet, the whole plan ahead. */
  lemma PlanFromStart(matched: seq<Rule>, steps: seq<Step>)
    ensures Plan(matched, steps, 0) == Then([], Plan(matched[0..], steps, 0))
  {
    assert matched[0..] == matched;
    if Plan(matched, steps, 0).Some? {
      assert [] + Plan(matched, steps, 0).value == Plan(matched, steps, 0).value;
    }
  }

  /** After the loop: with no rule left the accumulated rows are the plan. */
  lemma PlanOfNoRules(rest: seq<Rule>, steps: seq<Step>, start: int, acc: seq<Approval>)
    requires rest == []
    ensures Then(acc, Plan(rest, steps, start)) == Some(acc)
  {
    assert acc + [] == acc;
  }

  /**
   * `_can_access_quote` (also in app/proforma/routes.py and app/invoices/routes.py):
   * a view-all permission, the quote's creator, or an opportunity owner (a
   * non-zero id) in the user's team including the user.
   */
  predicate CanAccessQuote(viewAll: bool, userId: int, createdBy: int, oppOwner: Option<int>, team: set<int>)
  {
    viewAll || createdBy == userId || (oppOwner.Some? && oppOwner.value != 0 && oppOwner.value in team)
  }

  /** The signed-in user as the access checks see them: id, the `quotes.view_all` permission, and their team (themselves included). */
  datatype Viewer = Viewer(id: int, viewAll: bool, team: set<int>)

  /** `_require_quote_access` lets the user through; otherwise the handler aborts with 403 and changes nothing. */
  predicate MayOpenQuote(who: Viewer, createdBy: int, oppOwner: Option<int>)
  {
    CanAccessQuote(who.viewAll, who.id, createdBy, oppOwner, who.team)
  }

  /** `_require_opp_access`: view_all, or the opportunity's owner in the user's team (a missing owner is not). */
  predicate MayOpenOpportunity(who: Viewer, oppOwner: Option<int>)
  {
    who.viewAll || (oppOwner.Some? && oppOwner.value in who.team)
  }

  /**
   * Whoever may open an opportunity (with a non-zero owner) may open every
   * quote on it, whoever created the quote; the creator may open their quote
   * whatever the opportunity.
   */
  lemma OpportunityAccessCoversQuotes(who: Viewer, oppOwner: Option<int>, createdBy: int)
    ensures MayOpenOpportunity(who, oppOwner) && oppOwner != Some(0) ==> MayOpenQuote(who, createdBy, oppOwner)
    ensures createdBy == who.id ==> MayOpenQuote(who, createdBy, oppOwner)
  {
  }

  /** Access never depends on the team for a creator or a view-all holder, and otherwise only on the owner's membership. */
  lemma AccessByOwner(userId: int, createdBy: int, owner: int, team: set<int>)
    requires createdBy != userId && owner != 0
    ensures CanAccessQuote(false, userId, createdBy, Some(owner), team) <==> owner in team
    ensures !CanAccessQuote(false, userId, createdBy, None, team)
  {
  }

  /**
   * The item loop of `_recalc_quote`: each item in turn gets its normalised
   * cycle and amount, and its amount is added to the running subtotal.
   */
  method RecalcLines(items: seq<Item>) returns (its: seq<Item>, sub: real)
    ensures its == RecalcItems(items) && sub == SumAmounts(its)
  {
    ghost var done := RecalcItems(items);
    its := items;
    sub := 0.0;
    var i := 0;
    assert its == done[..0] + items[0..];
    while i < |its|
      invariant 0 <= i <= |its| && |its| == |items|
      invariant its == done[..i] + items[i..]
      invariant sub == SumAmounts(done[..i])
    {
      RecalcStep(items, i, its);
      SumStep(done, i);
      its := its[i := RecalcItem(its[i])];
      sub := sub + its[i].amount;
      i := i + 1;
    }
    assert done[..i] == done && items[i..] == [];
    assert its == done;
  }

  /** Recalculating item `i` extends the recalculated prefix by one. */
  lemma RecalcStep(items: seq<Item>, i: nat, its: seq<Item>)
    requires i < |items| && its == RecalcItems(items)[..i] + items[i..]
    ensures its[i] == items[i]
    ensures its[i := RecalcItem(items[i])] == RecalcItems(items)[..i + 1] + items[i + 1..]
  {
    var done := RecalcItems(items);
    assert its[i] == items[i..][0];
    var l, r := its[i := RecalcItem(items[i])], done[..i + 1] + items[i + 1..];
    assert |l| == |r|;
    forall k | 0 <= k < |l| ensures l[k] == r[k] {
      if k < i {
        assert l[k] == its[k] == done[k];
      } else if k > i {
        assert l[k] == its[k] == items[k];
      }
    }
  }

  /** The running subtotal after one more item. */
  lemma SumStep(xs: seq<Item>, i: nat)
    requires i < |xs|
    ensures SumAmounts(xs[..i + 1]) == SumAmounts(xs[..i]) + xs[i].amount
  {
    assert xs[..i + 1][..i] == xs[..i];
  }

  /** The item fields `autosave_item` writes: name trimmed, qty and rate through `_d`, the cycle normalised (kept when not sent). */
  function AutosaveItem(it: Item, name: string, qtyRaw: Raw, rateRaw: Raw, cycleRaw: string): (r: Item)
    ensures r.amount == it.amount && r.sortOrder == it.sortOrder && CycleOf(r.billingCycle).Some?
  {
    var cyc := if cycleRaw != "" then cycleRaw else if it.billingCycle != "" then it.billingCycle else "ONETIME";
    it.(name := Strip(name), qty := Some(D(qtyRaw, 0.0)), rate := Some(D(rateRaw, 0.0)), billingCycle := CycleName(NormCycle(cyc)))
  }

  /** The currency after `autosave_item`: changed only when the payload carries one (blank keeps the old, then INR). */
  function AutosaveCurrency(currencyRaw: Option<string>, current: string): (cur: string)
    ensures currencyRaw.None? ==> cur == current
  {
    match currencyRaw
    case None => current
    case Some(c) => Upper(Strip(if c != "" then c else if current != "" then current else "INR"))
  }

  /** The GST flag `autosave_item` stores: off for a non-INR currency, else "1", "true" or "True" (absent counts as "1"). */
  function GstToggle(currency: string, flag: Option<string>): (on: bool)
    ensures on ==> EffectiveCurrency(currency) == "INR"
    ensures flag.None? ==> (on <==> EffectiveCurrency(currency) == "INR")
  {
    var f := OrElse(flag, "1");
    EffectiveCurrency(currency) == "INR" && (f == "1" || f == "true" || f == "True")
  }

  /** Stored items and totals agree with what `_recalc_quote` would write. */
  predicate Balanced(items: seq<Item>, discount: Option<real>, ctx: TaxContext, subtotal: real, tax: Gst, total: real, totalAmount: real)
  {
    items == RecalcItems(items)
    && subtotal == SumAmounts(items)
    && tax == CalculateTax(ctx, subtotal, D(FromOption(discount), 0.0))
    && total == subtotal - D(FromOption(discount), 0.0) + tax.total
    && totalAmount == total
  }

  /** Recalculated items with their subtotal, tax and totals are balanced. */
  lemma RecalcBalances(items: seq<Item>, discount: Option<real>, ctx: TaxContext, its: seq<Item>, sub: real)
    requires its == RecalcItems(items) && sub == SumAmounts(its)
    ensures var disc := D(FromOption(discount), 0.0);
            var g := CalculateTax(ctx, sub, disc);
            Balanced(its, discount, ctx, sub, g, sub - disc + g.total, sub - disc + g.total)
  {
    RecalcItemsIdempotent(items);
  }

  class Quote {
    var code: string
    var version: int
    var opportunityId: int
    var createdBy: int
    var status: QuoteStatus
    var items: seq<Item>
    var discount: Option<real>
    var ctx: TaxContext
    var subtotal: real
    var tax: Gst
    var total: real
    var totalAmount: real
    var approvals: seq<Approval>
    var proposalTerms: string
    var proposalCreatedAt: Option<int>
    var proposalCreatedBy: Option<int>
    var proposalConfirmedAt: Option<int>
    var proposalConfirmedBy: Option<int>
    var clientId: Option<int>
    var finalPaymentDate: Option<int>
    var piRequestStatus: FinanceRequest
    var piRequestedAt: Option<int>
    var piRequestedBy: Option<int>
    var invoiceRequestStatus: FinanceRequest
    var invoiceRequestedAt: Option<int>
    var invoiceRequestedBy: Option<int>
    var piGeneratedAt: Option<int>
    var piGeneratedBy: Option<int>
    var invoiceGeneratedAt: Option<int>
    var invoiceGeneratedBy: Option<int>
    var closureDate: Option<int>  // estimated_closure_date

    /** The stored items and totals are what `_recalc_quote` would write. */
    predicate Consistent()
      reads this
    {
      Balanced(items, discount, ctx, subtotal, tax, total, totalAmount)
    }

    /** The approval rows are numbered 1..N and sequential. */
    predicate WorkflowOk()
      reads this
    {
      Numbered(approvals) && Sequential(approvals)
    }

    /** The row `create_quote` inserts: a Draft at version 1 with one default item, zero totals and no requests yet. */
    predicate IsNewDraft(oppId: int, creator: int, userBranchState: Option<string>, currencyRaw: string,
                         lastQuoteId: Option<nat>, closure: Option<int>)
      reads this
    {
      var cur := Upper(Strip(if currencyRaw == "" then "INR" else currencyRaw));
      code == NextCode("QT-", lastQuoteId) && version == 1 && opportunityId == oppId && createdBy == creator
      && status == DRAFT && approvals == [] && items == [DefaultItem(1)] && discount == Some(0.0)
      && closureDate == closure
      && ctx == TaxContext(cur, userBranchState, None, "", cur == "INR")
      && Consistent() && WorkflowOk() && subtotal == 0.0 && total == 0.0
      && proposalCreatedAt.None? && proposalConfirmedAt.None? && clientId.None?
      && piRequestStatus == NotRequested && invoiceRequestStatus == NotRequested
    }

    /** The new Draft of `create_quote`: currency from the form (INR when blank), GST on for INR only. */
    constructor Create(oppId: int, creator: int, userBranchState: Option<string>, currencyRaw: string, lastQuoteId: Option<nat>,
                       closure: Option<int>)
      ensures IsNewDraft(oppId, creator, userBranchState, currencyRaw, lastQuoteId, closure)
    {
      var cur := Upper(Strip(if currencyRaw == "" then "INR" else currencyRaw));
      var c := TaxContext(cur, userBranchState, None, "", cur == "INR");
      code := NextCode("QT-", lastQuoteId);
      version := 1;
      opportunityId := oppId;
      createdBy := creator;
      status := DRAFT;
      discount := Some(0.0);
      ctx := c;
      approvals := [];
      proposalTerms := "";
      proposalCreatedAt, proposalCreatedBy, proposalConfirmedAt, proposalConfirmedBy := None, None, None, None;
      clientId, finalPaymentDate := None, None;
      piRequestStatus, piRequestedAt, piRequestedBy := NotRequested, None, None;
      invoiceRequestStatus, invoiceRequestedAt, invoiceRequestedBy := NotRequested, None, None;
      piGeneratedAt, piGeneratedBy, invoiceGeneratedAt, invoiceGeneratedBy := None, None, None, None;
      closureDate := closure;
      items := [DefaultItem(1)];
      subtotal, tax, total, totalAmount := 0.0, Gst(0.0, 0.0, 0.0, 0.0), 0.0, 0.0;
      new;
      DefaultQuoteTotals(1, c);
    }

    /**
     * The POST of `create_quote`: a user who may not open the opportunity
     * gets 403, a closure date `strptime` cannot read fails the request,
     * and otherwise the new Draft is inserted.
     */
    static method Open(who: Viewer, oppId: int, oppOwner: Option<int>, closureRaw: string, userBranchState: Option<string>,
                       currencyRaw: string, lastQuoteId: Option<nat>) returns (outcome: OpenOutcome, q: Quote?)
      ensures outcome == OppForbidden <==> !MayOpenOpportunity(who, oppOwner)
      ensures outcome == OpenBadDate <==> MayOpenOpportunity(who, oppOwner) && OptionalDate(closureRaw).None?
      ensures outcome != Opened ==> q == null
      ensures outcome == Opened ==>
                q != null && fresh(q) &&
                q.IsNewDraft(oppId, who.id, userBranchState, currencyRaw, lastQuoteId, OptionalDate(closureRaw).value)
    {
      if !MayOpenOpportunity(who, oppOwner) {
        return OppForbidden, null;
      }
      var closure := OptionalDate(closureRaw);
      if closure.None? {
        return OpenBadDate, null;
      }
      q := new Quote.Create(oppId, who.id, userBranchState, currencyRaw, lastQuoteId, closure.value);
      outcome := Opened;
    }

    /**
     * The row `create_new_version` inserts: a Draft copy with the next
     * version number, the company branch, currency, discount and closure
     * date; the client branch and billing_state are not copied and GST is on
     * by the column default.
     */
    predicate IsVersionOf(base: Quote, latestVersion: Option<int>, creator: int, lastQuoteId: Option<nat>)
      reads this, base
    {
      version == (match latestVersion case Some(v) => v + 1 case None => base.version + 1)
      && code == NextCode("QT-", lastQuoteId) && opportunityId == base.opportunityId && createdBy == creator
      && status == DRAFT && approvals == [] && discount == base.discount && closureDate == base.closureDate
      && ctx == TaxContext(base.ctx.currency, base.ctx.companyBranchState, None, "", true)
      && items == RecalcItems(CopyItems(base.items))
      && subtotal == SumAmounts(RecalcItems(base.items))
      && Consistent() && WorkflowOk()
      && tax == Gst(0.0, 0.0, 0.0, 0.0)
    }

    /** The new version itself, its items copied and recalculated. */
    constructor NewVersion(base: Quote, latestVersion: Option<int>, creator: int, lastQuoteId: Option<nat>)
      ensures IsVersionOf(base, latestVersion, creator, lastQuoteId)
    {
      version := match latestVersion case Some(v) => v + 1 case None => base.version + 1;
      code := NextCode("QT-", lastQuoteId);
      opportunityId := base.opportunityId;
      createdBy := creator;
      status := DRAFT;
      discount := base.discount;
      closureDate := base.closureDate;
      approvals := [];
      proposalTerms := "";
      proposalCreatedAt, proposalCreatedBy, proposalConfirmedAt, proposalConfirmedBy := None, None, None, None;
      clientId, finalPaymentDate := None, None;
      piRequestStatus, piRequestedAt, piRequestedBy := NotRequested, None, None;
      invoiceRequestStatus, invoiceRequestedAt, invoiceRequestedBy := NotRequested, None, None;
      piGeneratedAt, piGeneratedBy, invoiceGeneratedAt, invoiceGeneratedBy := None, None, None, None;
      var c := TaxContext(base.ctx.currency, base.ctx.companyBranchState, None, "", true);
      var its, sub := RecalcLines(CopyItems(base.items));
      var disc := D(FromOption(base.discount), 0.0);
      NewVersionDropsBillingState(c.currency, c.companyBranchState, sub, disc);
      RecalcItemsIdempotent(CopyItems(base.items));
      CopyKeepsSubtotal(base.items);
      var g := CalculateTax(c, sub, disc);
      ctx := c;
      items := its;
      subtotal := sub;
      tax := g;
      total := sub - disc + g.total;
      totalAmount := sub - disc + g.total;
    }

    /** The POST of `create_new_version`: 403 unless the user may open the base quote, else the new version. */
    static method CreateVersion(base: Quote, who: Viewer, oppOwner: Option<int>, latestVersion: Option<int>,
                                lastQuoteId: Option<nat>) returns (outcome: Verdict, q: Quote?)
      ensures outcome == QuoteForbidden <==> !MayOpenQuote(who, base.createdBy, oppOwner)
      ensures outcome != Refused
      ensures outcome == QuoteForbidden ==> q == null
      ensures outcome == Done ==> q != null && fresh(q) && q.IsVersionOf(base, latestVersion, who.id, lastQuoteId)
    {
      if !MayOpenQuote(who, base.createdBy, oppOwner) {
        return QuoteForbidden, null;
      }
      q := new Quote.NewVersion(base, latestVersion, who.id, lastQuoteId);
      outcome := Done;
    }

    /**
     * `_recalc_quote`: normalise each item's cycle and set its amount while
     * summing the subtotal, then write tax, total and total_amount.
     */
    method Recalc()
      modifies this`items, this`subtotal, this`tax, this`total, this`totalAmount
      ensures items == RecalcItems(old(items)) && Consistent()
    {
      var its, sub := RecalcLines(items);
      var disc := D(FromOption(discount), 0.0);
      var g := CalculateTax(ctx, sub, disc);
      RecalcBalances(items, discount, ctx, its, sub);
      items := its;
      subtotal := sub;
      tax := g;
      total := sub - disc + g.total;
      totalAmount := total;
    }

    /** Recalculating a consistent quote changes nothing. */
    lemma RecalcOfConsistent()
      requires Consistent()
      ensures RecalcItems(items) == items && RecalcTotals(items, discount, ctx) == Totals(subtotal, tax, total, totalAmount)
    {
      assert SumAmounts(RecalcItems(items)) == subtotal;
    }

    /**
     * The POST of `edit_quote`: 403 unless the user may open the quote; a
     * locked quote is left alone; otherwise currency, GST flag (the form's
     * flag, whatever the currency), discount, billing state, the closure
     * date, the submitted items; then recalculation. A closure date
     * `strptime` cannot read fails the request and nothing is saved.
     */
    method Edit(who: Viewer, oppOwner: Option<int>, userBranchState: Option<string>, currencyRaw: string, gstFlag: string,
                discountRaw: Raw, billingStateRaw: string, closureRaw: string, forms: seq<ItemForm>)
      returns (outcome: SaveOutcome)
      modifies this`items, this`subtotal, this`tax, this`total, this`totalAmount, this`discount, this`ctx, this`closureDate
      ensures outcome == SaveForbidden <==> !MayOpenQuote(who, createdBy, oppOwner)
      ensures outcome == QuoteLocked <==> MayOpenQuote(who, createdBy, oppOwner) && Locked(old(status))
      ensures outcome == BadClosureDate <==>
                MayOpenQuote(who, createdBy, oppOwner) && !Locked(old(status)) && OptionalDate(closureRaw).None?
      ensures outcome != InvalidItem
      ensures outcome != Saved ==> unchanged(this)
      ensures outcome == Saved ==> closureDate == OptionalDate(closureRaw).value
      ensures outcome == Saved ==>
                ctx == TaxContext(Upper(Strip(if currencyRaw == "" then "INR" else currencyRaw)),
                                  if old(ctx.companyBranchState).None? then userBranchState else old(ctx.companyBranchState),
                                  old(ctx.clientBranchState), Strip(billingStateRaw), gstFlag == "1")
      ensures outcome == Saved ==> discount == Some(D(discountRaw, 0.0))
      ensures outcome == Saved ==> items == RecalcItems(EditItems(old(items), forms)) && Consistent()
    {
      if !MayOpenQuote(who, createdBy, oppOwner) {
        return SaveForbidden;
      }
      if Locked(status) {
        return QuoteLocked;
      }
      var closure := OptionalDate(closureRaw);
      if closure.None? {
        return BadClosureDate;
      }
      SaveEdit(userBranchState, currencyRaw, gstFlag, discountRaw, billingStateRaw, closure.value, forms);
      outcome := Saved;
    }

    /** The writes of an accepted `edit_quote` POST. */
    method SaveEdit(userBranchState: Option<string>, currencyRaw: string, gstFlag: string, discountRaw: Raw,
                    billingStateRaw: string, closure: Option<int>, forms: seq<ItemForm>)
      modifies this`items, this`subtotal, this`tax, this`total, this`totalAmount, this`discount, this`ctx, this`closureDate
      ensures closureDate == closure
      ensures ctx == TaxContext(Upper(Strip(if currencyRaw == "" then "INR" else currencyRaw)),
                                if old(ctx.companyBranchState).None? then userBranchState else old(ctx.companyBranchState),
                                old(ctx.clientBranchState), Strip(billingStateRaw), gstFlag == "1")
      ensures discount == Some(D(discountRaw, 0.0))
      ensures items == RecalcItems(EditItems(old(items), forms)) && Consistent()
    {
      var branch := if ctx.companyBranchState.None? then userBranchState else ctx.companyBranchState;
      var cur := Upper(Strip(if currencyRaw == "" then "INR" else currencyRaw));
      var its := ApplyForms(items, forms);
      ctx := TaxContext(cur, branch, ctx.clientBranchState, Strip(billingStateRaw), gstFlag == "1");
      discount := Some(D(discountRaw, 0.0));
      closureDate := closure;
      items := its;
      Recalc();
    }

    /** `add_item`: 403 unless the user may open the quote; an unlocked quote gets "Item n+1" with sort order n+1 (no recalculation). */
    method AddItem(who: Viewer, oppOwner: Option<int>) returns (outcome: Verdict)
      modifies this`items
      ensures outcome == QuoteForbidden <==> !MayOpenQuote(who, createdBy, oppOwner)
      ensures outcome == Done <==> MayOpenQuote(who, createdBy, oppOwner) && !Locked(old(status))
      ensures outcome != Done ==> unchanged(this)
      ensures outcome == Done ==> items == old(items) + [DefaultItem(|old(items)| + 1)]
    {
      if !MayOpenQuote(who, createdBy, oppOwner) {
        return QuoteForbidden;
      }
      if Locked(status) {
        return Refused;
      }
      items := items + [DefaultItem(|items| + 1)];
      outcome := Done;
    }

    /**
     * `autosave_item`: 403 unless the user may open the quote; the item must
     * belong to the quote (checked next) and the quote must be unlocked. The
     * discount defaults to the current one; the closure date is trimmed and
     * must parse when given; the currency changes only when sent; GST is off
     * for a non-INR currency and otherwise follows the flag ("1" when absent).
     */
    method Autosave(who: Viewer, oppOwner: Option<int>, k: int, userBranchState: Option<string>, name: string, qtyRaw: Raw,
                    rateRaw: Raw, cycleRaw: string, discountRaw: Raw, closureRaw: string, billingStateRaw: string,
                    currencyRaw: Option<string>, gstFlag: Option<string>)
      returns (outcome: SaveOutcome)
      modifies this`items, this`subtotal, this`tax, this`total, this`totalAmount, this`discount, this`ctx, this`closureDate
      ensures outcome == SaveForbidden <==> !MayOpenQuote(who, createdBy, oppOwner)
      ensures outcome == InvalidItem <==> MayOpenQuote(who, createdBy, oppOwner) && !(0 <= k < |old(items)|)
      ensures outcome == QuoteLocked <==>
                MayOpenQuote(who, createdBy, oppOwner) && 0 <= k < |old(items)| && Locked(old(status))
      ensures outcome == BadClosureDate <==>
                MayOpenQuote(who, createdBy, oppOwner) && 0 <= k < |old(items)| && !Locked(old(status)) &&
                OptionalDate(Strip(closureRaw)).None?
      ensures outcome != Saved ==> unchanged(this)
      ensures outcome == Saved ==> closureDate == OptionalDate(Strip(closureRaw)).value
      ensures outcome == Saved ==>
                var cur := AutosaveCurrency(currencyRaw, old(ctx.currency));
                ctx == TaxContext(cur, if old(ctx.companyBranchState).None? then userBranchState else old(ctx.companyBranchState),
                                  old(ctx.clientBranchState), Strip(billingStateRaw), GstToggle(cur, gstFlag))
      ensures outcome == Saved ==> discount == Some(D(discountRaw, OrElse(old(discount), 0.0)))
      ensures outcome == Saved ==>
                items == RecalcItems(old(items)[k := AutosaveItem(old(items)[k], name, qtyRaw, rateRaw, cycleRaw)])
      ensures outcome == Saved ==> Consistent()
    {
      if !MayOpenQuote(who, createdBy, oppOwner) {
        return SaveForbidden;
      }
      if !(0 <= k < |items|) {
        return InvalidItem;
      }
      if Locked(status) {
        return QuoteLocked;
      }
      var closure := OptionalDate(Strip(closureRaw));
      if closure.None? {
        return BadClosureDate;
      }
      SaveAutosave(k, userBranchState, name, qtyRaw, rateRaw, cycleRaw, discountRaw, closure.value, billingStateRaw,
                   currencyRaw, gstFlag);
      outcome := Saved;
    }

    /** The writes of an accepted `autosave_item` call on the quote's k-th item. */
    method SaveAutosave(k: int, userBranchState: Option<string>, name: string, qtyRaw: Raw, rateRaw: Raw, cycleRaw: string,
                        discountRaw: Raw, closure: Option<int>, billingStateRaw: string, currencyRaw: Option<string>,
                        gstFlag: Option<string>)
      requires 0 <= k < |items|
      modifies this`items, this`subtotal, this`tax, this`total, this`totalAmount, this`discount, this`ctx, this`closureDate
      ensures closureDate == closure
      ensures var cur := AutosaveCurrency(currencyRaw, old(ctx.currency));
              ctx == TaxContext(cur, if old(ctx.companyBranchState).None? then userBranchState else old(ctx.companyBranchState),
                                old(ctx.clientBranchState), Strip(billingStateRaw), GstToggle(cur, gstFlag))
      ensures discount == Some(D(discountRaw, OrElse(old(discount), 0.0)))
      ensures items == RecalcItems(old(items)[k := AutosaveItem(old(items)[k], name, qtyRaw, rateRaw, cycleRaw)])
      ensures Consistent()
    {
      items := items[k := AutosaveItem(items[k], name, qtyRaw, rateRaw, cycleRaw)];
      discount := Some(D(discountRaw, OrElse(discount, 0.0)));
      closureDate := closure;
      var cur := AutosaveCurrency(currencyRaw, ctx.currency);
      var branch := if ctx.companyBranchState.None? then userBranchState else ctx.companyBranchState;
      ctx := TaxContext(cur, branch, ctx.clientBranchState, Strip(billingStateRaw), GstToggle(cur, gstFlag));
      Recalc();
    }

    /**
     * `request_approval`: 403 unless the user may open the quote; then
     * recalculate; a locked quote stops there. No matching
     * rule approves the quote outright. Otherwise the old rows are deleted, a
     * rule without active steps stops the request (leaving no rows and the
     * status as it was), and else the new rows are stored, the first one
     * PENDING, and the quote is Pending Approval.
     */
    method RequestApproval(who: Viewer, oppOwner: Option<int>, rules: seq<Rule>, steps: seq<Step>) returns (outcome: RequestOutcome)
      modifies this`items, this`subtotal, this`tax, this`total, this`totalAmount, this`approvals, this`status
      ensures outcome == RequestForbidden <==> !MayOpenQuote(who, createdBy, oppOwner)
      ensures outcome == RequestForbidden ==> unchanged(this)
      ensures outcome != RequestForbidden ==> items == RecalcItems(old(items)) && Consistent()
      ensures outcome == RequestLocked <==> MayOpenQuote(who, createdBy, oppOwner) && Locked(old(status))
      ensures outcome == AutoApproved <==>
                MayOpenQuote(who, createdBy, oppOwner) && !Locked(old(status)) && MatchingRules(rules, total) == []
      ensures outcome == MissingSteps <==>
                MayOpenQuote(who, createdBy, oppOwner) && !Locked(old(status)) && MatchingRules(rules, total) != [] &&
                Plan(MatchingRules(rules, total), steps, 0).None?
      ensures outcome == RequestLocked ==> status == old(status) && approvals == old(approvals)
      ensures outcome == AutoApproved ==> status == APPROVED && approvals == old(approvals)
      ensures outcome == MissingSteps ==> status == old(status) && approvals == []
      ensures outcome == ApprovalStarted ==>
                status == PENDING_APPROVAL && approvals == Activate(Plan(MatchingRules(rules, total), steps, 0).value)
                && |approvals| > 0 && approvals[0].status == Pending
                && (forall i :: 1 <= i < |approvals| ==> approvals[i].status == Waiting)
      ensures outcome == ApprovalStarted || outcome == MissingSteps ==> WorkflowOk()
      ensures old(WorkflowOk()) ==> WorkflowOk()
    {
      if !MayOpenQuote(who, createdBy, oppOwner) {
        return RequestForbidden;
      }
      Recalc();
      if Locked(status) {
        return RequestLocked;
      }
      var matched := MatchingRules(rules, total);
      if matched == [] {
        status := APPROVED;
        return AutoApproved;
      }
      outcome := StartWorkflow(matched, steps);
    }

    /**
     * The second half of `request_approval`, once some rule matched: the old
     * rows go, and either a rule without active steps stops the request or the
     * planned rows are stored with the first one PENDING.
     */
    method StartWorkflow(matched: seq<Rule>, steps: seq<Step>) returns (outcome: RequestOutcome)
      requires matched != []
      modifies this`approvals, this`status
      ensures outcome == MissingSteps || outcome == ApprovalStarted
      ensures outcome == MissingSteps <==> Plan(matched, steps, 0).None?
      ensures outcome == MissingSteps ==> status == old(status) && approvals == []
      ensures outcome == ApprovalStarted ==>
                status == PENDING_APPROVAL && approvals == Activate(Plan(matched, steps, 0).value)
                && |approvals| > 0 && approvals[0].status == Pending
                && (forall i :: 1 <= i < |approvals| ==> approvals[i].status == Waiting)
      ensures WorkflowOk()
    {
      approvals := [];
      var rows := BuildRows(matched, steps);
      if rows.None? {
        return MissingSteps;
      }
      var planned := rows.value;
      PlanShape(matched, steps, 0);
      assert |planned| >= |matched| > 0;
      assert Numbered(planned);
      StartedRequestIsSequential(planned);
      approvals := Activate(planned);
      status := PENDING_APPROVAL;
      outcome := ApprovalStarted;
    }

    /**
     * `act_on_approval` on the quote's k-th row: 403 unless the user may
     * open the quote; the row must be PENDING, the user
     * must be allowed to act on it, and the decision APPROVE or REJECT. APPROVE
     * promotes the next WAITING row and approves the quote once nothing is open;
     * REJECT cancels every open row and rejects the quote. The remark is
     * stored trimmed.
     */
    method Act(k: int, who: Viewer, oppOwner: Option<int>, roleName: Option<string>, decision: string, remark: string, now: int)
      returns (outcome: ActOutcome)
      modifies this`approvals, this`status
      ensures outcome == NotFound <==> !(0 <= k < |old(approvals)|)
      ensures outcome == ActForbidden <==> 0 <= k < |old(approvals)| && !MayOpenQuote(who, createdBy, oppOwner)
      ensures outcome == NotPending <==>
                0 <= k < |old(approvals)| && MayOpenQuote(who, createdBy, oppOwner) && old(approvals)[k].status != Pending
      ensures outcome == NotAllowed <==>
                0 <= k < |old(approvals)| && MayOpenQuote(who, createdBy, oppOwner) && old(approvals)[k].status == Pending &&
                !CanActOn(old(approvals)[k], who.id, roleName)
      ensures outcome == Decided <==>
                0 <= k < |old(approvals)| && MayOpenQuote(who, createdBy, oppOwner) && old(approvals)[k].status == Pending &&
                CanActOn(old(approvals)[k], who.id, roleName) && (decision == "APPROVE" || decision == "REJECT")
      ensures outcome != Decided ==> unchanged(this)
      ensures outcome == Decided && decision == "APPROVE" ==>
                approvals == Activate(Decide(old(approvals), k, Approved, Strip(remark), who.id, now))
                && status == (if NoneOpen(approvals) then APPROVED else old(status))
      ensures outcome == Decided && decision == "REJECT" ==>
                approvals == CancelOpen(Decide(old(approvals), k, Rejected, Strip(remark), who.id, now))
                && NoneOpen(approvals) && status == REJECTED
      ensures old(WorkflowOk()) ==> WorkflowOk()
    {
      if !(0 <= k < |approvals|) {
        return NotFound;
      }
      if !MayOpenQuote(who, createdBy, oppOwner) {
        return ActForbidden;
      }
      if approvals[k].status != Pending {
        return NotPending;
      }
      var userId, rm := who.id, Strip(remark);
      if !CanActOn(approvals[k], userId, roleName) {
        return NotAllowed;
      }
      if decision != "APPROVE" && decision != "REJECT" {
        return InvalidDecision;
      }
      Record(k, decision == "APPROVE", rm, userId, now);
      outcome := Decided;
    }

    /**
     * The writes of an accepted decision on the PENDING k-th row: approval
     * promotes the next WAITING row and approves the quote once nothing is
     * open; rejection cancels every open row and rejects the quote.
     */
    method Record(k: int, approve: bool, remark: string, userId: int, now: int)
      requires 0 <= k < |approvals| && approvals[k].status == Pending
      modifies this`approvals, this`status
      ensures approve ==>
                approvals == Activate(Decide(old(approvals), k, Approved, remark, userId, now))
                && status == (if NoneOpen(approvals) then APPROVED else old(status))
      ensures !approve ==>
                approvals == CancelOpen(Decide(old(approvals), k, Rejected, remark, userId, now))
                && NoneOpen(approvals) && status == REJECTED
      ensures old(WorkflowOk()) ==> WorkflowOk()
    {
      var rows := approvals;
      if !approve {
        RejectClosesAll(rows, k, remark, userId, now);
        approvals := CancelOpen(Decide(rows, k, Rejected, remark, userId, now));
        assert forall i :: 0 <= i < |rows| ==> approvals[i].stepOrder == rows[i].stepOrder;
        status := REJECTED;
        return;
      }
      if Numbered(rows) && Sequential(rows) {
        ApproveKeepsSequential(rows, k, remark, userId, now);
      }
      approvals := Activate(Decide(rows, k, Approved, remark, userId, now));
      if NoneOpen(approvals) {
        status := APPROVED;
      }
    }

    /**
     * `proposal_builder` POST: 403 unless the user may open the quote; only a Selected quote (a Sent one is read-only)
     * with non-blank terms gets the trimmed terms, the time and the author.
     */
    method SaveProposal(who: Viewer, oppOwner: Option<int>, terms: string, now: int) returns (outcome: Verdict)
      modifies this`proposalTerms, this`proposalCreatedAt, this`proposalCreatedBy
      ensures outcome == QuoteForbidden <==> !MayOpenQuote(who, createdBy, oppOwner)
      ensures outcome == Done <==> MayOpenQuote(who, createdBy, oppOwner) && old(status) == SELECTED && !IsBlank(terms)
      ensures outcome != Done ==> unchanged(this)
      ensures outcome == Done ==>
                proposalTerms == Strip(terms) && proposalCreatedAt == Some(now) && proposalCreatedBy == Some(who.id)
    {
      if !MayOpenQuote(who, createdBy, oppOwner) {
        return QuoteForbidden;
      }
      if status != SELECTED && status != SENT {
        return Refused;
      }
      if status == SENT {
        return Refused;
      }
      var t := Strip(terms);
      if t == "" {
        return Refused;
      }
      proposalTerms, proposalCreatedAt, proposalCreatedBy := t, Some(now), Some(who.id);
      outcome := Done;
    }

    /** `mark_sent`: 403 unless the user may open the quote; a Selected quote with a saved proposal becomes Sent. */
    method MarkSent(who: Viewer, oppOwner: Option<int>) returns (outcome: Verdict)
      modifies this`status
      ensures outcome == QuoteForbidden <==> !MayOpenQuote(who, createdBy, oppOwner)
      ensures outcome == Done <==>
                MayOpenQuote(who, createdBy, oppOwner) && old(status) == SELECTED && old(proposalCreatedAt).Some?
      ensures outcome != Done ==> unchanged(this)
      ensures outcome == Done ==> status == SENT
    {
      if !MayOpenQuote(who, createdBy, oppOwner) {
        return QuoteForbidden;
      }
      if status == SENT {
        return Refused;
      }
      if status != SELECTED {
        return Refused;
      }
      if proposalCreatedAt.None? {
        return Refused;
      }
      status := SENT;
      outcome := Done;
    }

    /**
     * `convert_quote_to_client` on the quote's side: 403 unless the user may
     * open the quote; an Approved or Sent quote
     * not yet linked, with company name, branch location, contact name and a
     * final payment date, is linked to the new client and branch (whose state
     * is the form's or else the billing state) and becomes Selected.
     */
    method ConvertToClient(who: Viewer, oppOwner: Option<int>, newClientId: int, companyName: string, branchLocation: string,
                           contactName: string, stateRaw: string, finalPayment: Option<int>) returns (outcome: Verdict)
      modifies this`clientId, this`finalPaymentDate, this`status, this`ctx
      ensures outcome == QuoteForbidden <==> !MayOpenQuote(who, createdBy, oppOwner)
      ensures outcome == Done <==>
                MayOpenQuote(who, createdBy, oppOwner) && (old(status) == APPROVED || old(status) == SENT) &&
                old(clientId).None? && !IsBlank(companyName) && !IsBlank(branchLocation) && !IsBlank(contactName) &&
                finalPayment.Some?
      ensures outcome != Done ==> unchanged(this)
      ensures outcome == Done ==> clientId == Some(newClientId) && finalPaymentDate == finalPayment && status == SELECTED
      ensures outcome == Done ==>
                ctx == old(ctx).(clientBranchState := Some(if IsBlank(stateRaw) then old(ctx.billingState) else Strip(stateRaw)))
    {
      if !MayOpenQuote(who, createdBy, oppOwner) {
        return QuoteForbidden;
      }
      if status != APPROVED && status != SENT {
        return Refused;
      }
      if clientId.Some? {
        return Refused;
      }
      if Strip(companyName) == "" || Strip(branchLocation) == "" || Strip(contactName) == "" {
        return Refused;
      }
      if finalPayment.None? {
        return Refused;
      }
      finalPaymentDate := finalPayment;
      var st := Strip(stateRaw);
      ctx := ctx.(clientBranchState := Some(if st == "" then ctx.billingState else st));
      clientId := Some(newClientId);
      status := SELECTED;
      outcome := Done;
    }

    /** `confirm_proposal`: 403 unless the user may open the quote; a Sent quote with a proposal records who confirmed it and when. */
    method ConfirmProposal(who: Viewer, oppOwner: Option<int>, now: int) returns (outcome: Verdict)
      modifies this`proposalConfirmedAt, this`proposalConfirmedBy
      ensures outcome == QuoteForbidden <==> !MayOpenQuote(who, createdBy, oppOwner)
      ensures outcome == Done <==> MayOpenQuote(who, createdBy, oppOwner) && old(status) == SENT && old(proposalCreatedAt).Some?
      ensures outcome != Done ==> unchanged(this)
      ensures outcome == Done ==> proposalConfirmedAt == Some(now) && proposalConfirmedBy == Some(who.id)
    {
      if !MayOpenQuote(who, createdBy, oppOwner) {
        return QuoteForbidden;
      }
      if status != SENT || proposalCreatedAt.None? {
        return Refused;
      }
      proposalConfirmedAt, proposalConfirmedBy := Some(now), Some(who.id);
      outcome := Done;
    }

    /**
     * `request_pi`: 403 unless the user may open the quote; a confirmed,
     * Sent quote with no pending request and no live PI asks Finance for a PI.
     */
    method RequestPi(who: Viewer, oppOwner: Option<int>, hasLivePi: bool, now: int) returns (outcome: Verdict)
      modifies this`piRequestStatus, this`piRequestedAt, this`piRequestedBy
      ensures outcome == QuoteForbidden <==> !MayOpenQuote(who, createdBy, oppOwner)
      ensures outcome == Done <==>
                MayOpenQuote(who, createdBy, oppOwner) && old(proposalConfirmedAt).Some? && old(status) == SENT &&
                old(piRequestStatus) != RequestPending && !hasLivePi
      ensures outcome != Done ==> unchanged(this)
      ensures outcome == Done ==> piRequestStatus == RequestPending && piRequestedAt == Some(now) && piRequestedBy == Some(who.id)
    {
      if !MayOpenQuote(who, createdBy, oppOwner) {
        return QuoteForbidden;
      }
      if proposalConfirmedAt.None? || status != SENT || piRequestStatus == RequestPending || hasLivePi {
        return Refused;
      }
      piRequestStatus, piRequestedAt, piRequestedBy := RequestPending, Some(now), Some(who.id);
      outcome := Done;
    }

    /**
     * `request_invoice`: 403 unless the user may open the quote; a Sent,
     * confirmed quote with a live PI, no live invoice and no pending request.
     */
    method RequestInvoice(who: Viewer, oppOwner: Option<int>, hasLivePi: bool, hasLiveInvoice: bool, now: int)
      returns (outcome: Verdict)
      modifies this`invoiceRequestStatus, this`invoiceRequestedAt, this`invoiceRequestedBy
      ensures outcome == QuoteForbidden <==> !MayOpenQuote(who, createdBy, oppOwner)
      ensures outcome == Done <==>
                MayOpenQuote(who, createdBy, oppOwner) && old(status) == SENT && old(proposalConfirmedAt).Some? &&
                hasLivePi && !hasLiveInvoice && old(invoiceRequestStatus) != RequestPending
      ensures outcome != Done ==> unchanged(this)
      ensures outcome == Done ==>
                invoiceRequestStatus == RequestPending && invoiceRequestedAt == Some(now) && invoiceRequestedBy == Some(who.id)
    {
      if !MayOpenQuote(who, createdBy, oppOwner) {
        return QuoteForbidden;
      }
      if status != SENT || proposalConfirmedAt.None? || !hasLivePi || hasLiveInvoice || invoiceRequestStatus == RequestPending {
        return Refused;
      }
      invoiceRequestStatus, invoiceRequestedAt, invoiceRequestedBy := RequestPending, Some(now), Some(who.id);
      outcome := Done;
    }
  }

  /** A new version of a quote whose tax came from its billing state alone is untaxed: that state is not copied. */
  lemma NewVersionDropsBillingState(currency: string, companyState: Option<string>, subtotal: real, discount: real)
    ensures !Taxed(TaxContext(currency, companyState, None, "", true))
    ensures CalculateTax(TaxContext(currency, companyState, None, "", true), subtotal, discount) == Gst(0.0, 0.0, 0.0, 0.0)
  {
    assert Strip("") == "";
  }

  /** Editing a non-INR quote may leave the GST flag on, yet it still pays no tax. */
  lemma ForeignEditUntaxed(ctx: TaxContext, subtotal: real, discount: real)
    requires EffectiveCurrency(ctx.currency) != "INR" && ctx.gstApplicable
    ensures CalculateTax(ctx, subtotal, discount).total == 0.0
  {
    ForeignCurrencyUntaxed(ctx, subtotal, discount);
  }
}
