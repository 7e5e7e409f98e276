/**
 * Quote pricing (app/quotes/routes.py): billing-cycle normalisation and
 * multipliers, line amounts, subtotal and India's GST split.
 * Money is Python `Decimal`, modelled exactly as `real`.
 */
module Pricing {
  import opened Wrappers
  import opened Text
  import opened Numbers

  /** The four values of ALLOWED_BILLING. */
  datatype Cycle = OneTime | Monthly | HalfYearly | Annual

  function CycleName(c: Cycle): string
  {
    match c
    case OneTime => "ONETIME"
    case Monthly => "MONTHLY"
    case HalfYearly => "HALF_YEARLY"
    case Annual => "ANNUAL"
  }

  /** BILLING_MULT: how many billing periods one line amount covers. */
  function Mult(c: Cycle): (m: real)
    ensures m >= 1.0
  {
    match c
    case OneTime => 1.0
    case Monthly => 1.0
    case HalfYearly => 6.0
    case Annual => 12.0
  }

  function CycleOf(name: string): (r: Option<Cycle>)
    ensures r.Some? ==> CycleName(r.value) == name
    ensures r.None? ==> forall c: Cycle :: CycleName(c) != name
  {
    if name == "ONETIME" then Some(OneTime)
    else if name == "MONTHLY" then Some(Monthly)
    else if name == "HALF_YEARLY" then Some(HalfYearly)
    else if name == "ANNUAL" then Some(Annual)
    else None
  }

  /**
   * `_norm_cycle(v)`: a missing value is ONETIME; otherwise the value is
   * trimmed and upper-cased, and anything outside ALLOWED_BILLING is ONETIME.
   * The empty string stands for None (both are falsy).
   */
  function NormCycle(v: string): Cycle
  {
    if v == "" then OneTime else CycleFromKey(Upper(Strip(v)))
  }

  /** The cycle a trimmed, upper-cased name selects, ONETIME for an unknown name. */
  function CycleFromKey(u: string): (c: Cycle)
    ensures CycleName(c) == u || (c == OneTime && forall d: Cycle :: CycleName(d) != u)
  {
    match CycleOf(u)
    case Some(c) => c
    case None => OneTime
  }

  /** The normalised cycle is the one the trimmed, upper-cased value names, else ONETIME. */
  lemma NormCycleSpec(v: string)
    ensures var c := NormCycle(v);
            CycleName(c) == Upper(Strip(v)) || (c == OneTime && forall d: Cycle :: CycleName(d) != Upper(Strip(v)))
  {
    if v == "" {
      assert Upper(Strip(v)) == "";
      assert CycleFromKey("") == OneTime;
    }
  }

  /** A cycle name written back to the row normalises to the same cycle. */
  lemma NormCycleOfName(c: Cycle)
    ensures NormCycle(CycleName(c)) == c
  {
    var n := CycleName(c);
    StripUnpadded(n);
    assert Upper(n) == n;
  }

  /** `_norm_cycle` is idempotent: normalising a normalised name changes nothing. */
  lemma NormCycleIdempotent(v: string)
    ensures NormCycle(CycleName(NormCycle(v))) == NormCycle(v)
  {
    NormCycleOfName(NormCycle(v));
  }

  /** Any spelling that trims and upper-cases to a cycle's name, " annual " say, selects that cycle. */
  lemma NormCycleOfStripped(v: string, c: Cycle)
    requires Upper(Strip(v)) == CycleName(c)
    ensures NormCycle(v) == c
  {
    if v == "" {
      assert Upper(Strip(v)) == "";
    }
  }

  /** Every value that names no cycle once trimmed and upper-cased falls back to ONETIME. */
  lemma NormCycleUnknown(v: string)
    requires forall d: Cycle :: CycleName(d) != Upper(Strip(v))
    ensures NormCycle(v) == OneTime
  {
  }

  /** A QuoteItem row as `_recalc_quote` sees it (Numeric columns may be NULL). */
  datatype Item = Item(name: string, qty: Option<real>, rate: Option<real>, billingCycle: string, amount: real, sortOrder: int)

  /** qty × rate × the cycle's multiplier. */
  function Amount(qty: real, rate: real, c: Cycle): real
  {
    qty * rate * Mult(c)
  }

  /** The line's amount, NULL qty or rate reading as 0. */
  function LineAmount(it: Item): real
  {
    Amount(D(FromOption(it.qty), 0.0), D(FromOption(it.rate), 0.0), NormCycle(it.billingCycle))
  }

  /** What `_recalc_quote` writes back onto one item: the normalised cycle and the amount. */
  function RecalcItem(it: Item): (r: Item)
    ensures r.name == it.name && r.qty == it.qty && r.rate == it.rate && r.sortOrder == it.sortOrder
    ensures CycleOf(r.billingCycle).Some?
  {
    it.(billingCycle := CycleName(NormCycle(it.billingCycle)), amount := LineAmount(it))
  }

  function RecalcItems(items: seq<Item>): (r: seq<Item>)
    ensures |r| == |items|
  {
    seq(|items|, i requires 0 <= i < |items| => RecalcItem(items[i]))
  }

  /** Σ item.amount, summed front to back. */
  function SumAmounts(items: seq<Item>): real
  {
    if items == [] then 0.0 else SumAmounts(items[..|items| - 1]) + items[|items| - 1].amount
  }

  lemma {:induction false} RecalcItemIdempotent(it: Item)
    ensures RecalcItem(RecalcItem(it)) == RecalcItem(it)
  {
    var c := NormCycle(it.billingCycle);
    NormCycleOfName(c);
    var r := RecalcItem(it);
    assert NormCycle(r.billingCycle) == c;
  }

  lemma {:induction false} RecalcItemsIdempotent(items: seq<Item>)
    ensures RecalcItems(RecalcItems(items)) == RecalcItems(items)
  {
    forall i | 0 <= i < |items|
      ensures RecalcItems(RecalcItems(items))[i] == RecalcItems(items)[i]
    {
      RecalcItemIdempotent(items[i]);
    }
  }

  /** Items whose amounts are all non-negative sum to a non-negative subtotal. */
  lemma {:induction false} SumAmountsNonNegative(items: seq<Item>)
    requires forall i :: 0 <= i < |items| ==> items[i].amount >= 0.0
    ensures SumAmounts(items) >= 0.0
  {
    if items != [] {
      SumAmountsNonNegative(items[..|items| - 1]);
    }
  }

  /** Everything besides subtotal and discount that `_calculate_tax_components` reads. */
  datatype TaxContext = TaxContext(
    currency: string,                 // "" for NULL
    companyBranchState: Option<string>, // None: no company branch; Some(""): NULL state
    clientBranchState: Option<string>,  // None: no client branch on the quote
    billingState: string,             // "" for NULL
    gstApplicable: bool)

  datatype Gst = Gst(cgst: real, sgst: real, igst: real, total: real)

  /** The currency as compared: NULL counts as INR, then trimmed and upper-cased. */
  function EffectiveCurrency(currency: string): string
  {
    Upper(Strip(if currency == "" then "INR" else currency))
  }

  /** The customer's state: the client branch's if non-blank, else billing_state, trimmed. */
  function CustomerState(ctx: TaxContext): string
  {
    if ctx.clientBranchState.Some? && !IsBlank(ctx.clientBranchState.value)
    then Strip(ctx.clientBranchState.value)
    else Strip(ctx.billingState)
  }

  /** Tax is charged only on an INR quote with a company state, a customer state and the GST flag. */
  predicate Taxed(ctx: TaxContext)
  {
    EffectiveCurrency(ctx.currency) == "INR"
    && ctx.companyBranchState.Some? && !IsBlank(ctx.companyBranchState.value)
    && CustomerState(ctx) != ""
    && ctx.gstApplicable
  }

  predicate IntraState(ctx: TaxContext)
    requires ctx.companyBranchState.Some?
  {
    Lower(Strip(ctx.companyBranchState.value)) == Lower(CustomerState(ctx))
  }

  /** max(subtotal − discount, 0). */
  function TaxableBase(subtotal: real, discount: real): (b: real)
    ensures b >= 0.0 && b >= subtotal - discount
    ensures b == subtotal - discount || b == 0.0
  {
    if subtotal - discount < 0.0 then 0.0 else subtotal - discount
  }

  /**
   * `_calculate_tax_components`: (cgst, sgst, igst, total_tax).
   */
  function CalculateTax(ctx: TaxContext, subtotal: real, discount: real): (g: Gst)
    ensures g.total == g.cgst + g.sgst + g.igst
    ensures g.cgst == g.sgst && g.cgst >= 0.0 && g.igst >= 0.0
    ensures !Taxed(ctx) ==> g == Gst(0.0, 0.0, 0.0, 0.0)
    ensures Taxed(ctx) ==> g.total == TaxableBase(subtotal, discount) * 18.0 / 100.0
    ensures g.igst == 0.0 || g.cgst == 0.0
  {
    if EffectiveCurrency(ctx.currency) != "INR" then Gst(0.0, 0.0, 0.0, 0.0)
    else
      var base := TaxableBase(subtotal, discount);
      if ctx.companyBranchState.None? || IsBlank(ctx.companyBranchState.value) then Gst(0.0, 0.0, 0.0, 0.0)
      else if CustomerState(ctx) == "" || !ctx.gstApplicable then Gst(0.0, 0.0, 0.0, 0.0)
      else if IntraState(ctx) then
        var half := base * 9.0 / 100.0;
        Gst(half, half, 0.0, half + half + 0.0)
      else
        var igst := base * 18.0 / 100.0;
        Gst(0.0, 0.0, igst, 0.0 + 0.0 + igst)
  }

  /** Same state: CGST and SGST at 9% each; different states: IGST at 18%. */
  lemma GstSplit(ctx: TaxContext, subtotal: real, discount: real)
    requires Taxed(ctx)
    ensures var g := CalculateTax(ctx, subtotal, discount);
            var base := TaxableBase(subtotal, discount);
            if IntraState(ctx) then g.cgst == base * 9.0 / 100.0 && g.igst == 0.0
            else g.igst == base * 18.0 / 100.0 && g.cgst == 0.0
  {
  }

  /** The quote-level numbers `_recalc_quote` writes. */
  datatype Totals = Totals(subtotal: real, tax: Gst, total: real, totalAmount: real)

  /** subtotal = Σ amounts; total = subtotal − discount + tax (discount not clamped); total_amount = total. */
  function RecalcTotals(items: seq<Item>, discount: Option<real>, ctx: TaxContext): Totals
  {
    var sub := SumAmounts(RecalcItems(items));
    var disc := D(FromOption(discount), 0.0);
    var g := CalculateTax(ctx, sub, disc);
    Totals(sub, g, sub - disc + g.total, sub - disc + g.total)
  }

  /** Recalculating twice gives identical items and totals. */
  lemma RecalcIdempotent(items: seq<Item>, discount: Option<real>, ctx: TaxContext)
    ensures RecalcItems(RecalcItems(items)) == RecalcItems(items)
    ensures RecalcTotals(RecalcItems(items), discount, ctx) == RecalcTotals(items, discount, ctx)
  {
    RecalcItemsIdempotent(items);
  }

  /** When taxed, the total is subtotal − discount plus 18% of the clamped base. */
  lemma TotalWithGst(items: seq<Item>, discount: Option<real>, ctx: TaxContext)
    requires Taxed(ctx)
    ensures var t := RecalcTotals(items, discount, ctx);
            var disc := D(FromOption(discount), 0.0);
            t.total == t.subtotal - disc + TaxableBase(t.subtotal, disc) * 18.0 / 100.0
            && t.totalAmount == t.total
  {
  }

  /** A non-INR quote is never taxed, whatever its flag and states. */
  lemma ForeignCurrencyUntaxed(ctx: TaxContext, subtotal: real, discount: real)
    requires EffectiveCurrency(ctx.currency) != "INR"
    ensures CalculateTax(ctx, subtotal, discount) == Gst(0.0, 0.0, 0.0, 0.0)
  {
  }
}
