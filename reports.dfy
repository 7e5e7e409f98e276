/**
 * The cluster reports (app/admin/reports.py): the month picker, the cluster
 * scope (a head and everyone below them), productivity against a run-rate
 * target, receivables aging, and project margin quality. Query results
 * arrive as sequences in table (id) order; today is a parameter.
 */
module Reports {
  import opened Wrappers
  import opened Text
  import opened Numbers
  import opened Calendar
  import opened Team
  import opened Invoicing
  import opened Projects

  // ------------------------------------------------------------ month picker

  /** The `month_value` the report pages echo back: `f"{y:04d}-{m:02d}"`. */
  function MonthValue(y: nat, m: nat): string
  {
    PadTo(4, y) + "-" + PadTo(2, m)
  }

  /**
   * `_parse_month`: "Y-M" with two integer parts and a month from 1 to 12;
   * anything else (empty, one part, three parts, non-numbers, month 13)
   * falls back to today's year and month.
   */
  function ParseMonth(s: string, todayYear: int, todayMonth: int): (ym: (int, int))
    ensures IsBlank(s) ==> ym == (todayYear, todayMonth)
    ensures 1 <= todayMonth <= 12 ==> 1 <= ym.1 <= 12
  {
    var parts := Split(Strip(s), '-');
    if |parts| == 2 && ParseInt(parts[0]).Some? && ParseInt(parts[1]).Some? &&
       1 <= ParseInt(parts[1]).value <= 12
    then (ParseInt(parts[0]).value, ParseInt(parts[1]).value)
    else (todayYear, todayMonth)
  }

  /** The month the page shows is the month it reads back: `_parse_month(month_value) == (y, m)`. */
  lemma MonthValueRoundTrip(y: nat, m: nat, todayYear: int, todayMonth: int)
    requires 1 <= m <= 12
    ensures ParseMonth(MonthValue(y, m), todayYear, todayMonth) == (y, m)
  {
    var a, b := PadTo(4, y), PadTo(2, m);
    var s := MonthValue(y, m);
    assert s[0] == a[0] && s[|s| - 1] == b[|b| - 1];
    StripUnpadded(s);
    assert '-' !in a && '-' !in b;
    assert Join([a, b], '-') == s by {
      assert [a, b][1..] == [b];
    }
    SplitJoin([a, b], '-');
    ParsePadded(4, y);
    ParsePadded(2, m);
  }

  /**
   * The report month as the handlers use it: the parsed (year, month) and its
   * bounds, or None when the year is outside 1..9999 and `date(...)` raises.
   */
  function ReportMonth(monthRaw: string, todayYear: int, todayMonth: int): (r: Option<(int, int, int, int)>)
    requires 1 <= todayMonth <= 12
    ensures var ym := ParseMonth(monthRaw, todayYear, todayMonth);
            r.Some? <==> MIN_YEAR <= ym.0 <= MAX_YEAR
    ensures r.Some? ==> 1 <= r.value.1 <= 12 && MIN_YEAR <= r.value.0 <= MAX_YEAR &&
                        (r.value.2, r.value.3) == MonthBounds(r.value.0, r.value.1)
  {
    var ym := ParseMonth(monthRaw, todayYear, todayMonth);
    if MIN_YEAR <= ym.0 <= MAX_YEAR then
      var b := MonthBounds(ym.0, ym.1);
      Some((ym.0, ym.1, b.0, b.1))
    else None
  }

  /** days_elapsed: today's day of the month, clamped into 1..days_in_month. */
  function DaysElapsed(today: int, start: int, daysInMonth: int): (e: int)
    requires daysInMonth >= 1
    ensures 1 <= e <= daysInMonth
    ensures start <= today < start + daysInMonth ==> e == today - start + 1
    ensures today < start ==> e == 1
    ensures today >= start + daysInMonth ==> e == daysInMonth
  {
    var e := today - start + 1;
    if e < 1 then 1 else if e > daysInMonth then daysInMonth else e
  }

  // ------------------------------------------------------------ cluster scope

  /**
   * `_cluster_filter_params`: a cluster_id of digits naming an existing user
   * scopes the report to that head and everyone below them; otherwise the
   * report is unscoped.
   */
  method ClusterScope(clusterIdRaw: string, userIds: set<int>, profiles: seq<Profile>)
    returns (scope: Option<set<int>>)
    ensures var t := Strip(clusterIdRaw);
            scope.Some? <==> IsDigits(t) && DigitsValue(t) in userIds
    ensures scope.Some? ==> IsTeam(profiles, DigitsValue(Strip(clusterIdRaw)), true, scope.value)
  {
    var t := Strip(clusterIdRaw);
    if IsDigits(t) && DigitsValue(t) in userIds {
      var team := TeamUserIds(profiles, DigitsValue(t), true);
      return Some(team);
    }
    return None;
  }

  /** `if allowed_ids:` — no scope, or a member of it. */
  predicate InScope(scope: Option<set<int>>, userId: int)
  {
    scope.None? || userId in scope.value
  }

  /** The cluster head always belongs to their own cluster. */
  lemma HeadInOwnCluster(profiles: seq<Profile>, head: int, team: set<int>)
    requires IsTeam(profiles, head, true, team)
    ensures InScope(Some(team), head)
  {
  }

  // ------------------------------------------------------------ productivity

  /** A listed user: monthly CTC and the profile's team role, each possibly NULL. */
  datatype ReportUser = ReportUser(id: int, isActive: bool, monthlyCtc: Option<real>, teamRole: Option<string>)

  /** One invoice of the revenue query with its opportunity's owner. */
  datatype RevenueRow = RevenueRow(ownerId: Option<int>, invoiceDate: int, totalAmount: real)

  datatype RunRate = Green | Amber | Red

  /** The users the report lists: active, and in the cluster when one is chosen. */
  function ReportUsers(users: seq<ReportUser>, scope: Option<set<int>>): (r: seq<ReportUser>)
    ensures forall u :: u in r <==> u in users && u.isActive && InScope(scope, u.id)
  {
    if users == [] then []
    else
      var last := users[|users| - 1];
      assert users == users[..|users| - 1] + [last];
      ReportUsers(users[..|users| - 1], scope) + (if last.isActive && InScope(scope, last.id) then [last] else [])
  }

  /** `team_role or "BD"`: a missing or empty role counts as BD. */
  function RoleOf(teamRole: Option<string>): (role: string)
    ensures role != []
    ensures teamRole.None? || teamRole == Some([]) ==> role == "BD"
  {
    if teamRole.None? || teamRole.value == [] then "BD" else teamRole.value
  }

  /** The month's revenue target is 15× CTC for BD and 25× for every other role. */
  function RequiredMultiplier(role: string): (k: real)
    ensures k == 15.0 || k == 25.0
    ensures k == 15.0 <==> role == "BD"
  {
    if role == "BD" then 15.0 else 25.0
  }

  /** required_mtd: the month's target prorated to the days elapsed. */
  function RequiredMtd(ctc: real, role: string, elapsed: int, daysInMonth: int): real
    requires daysInMonth >= 1
  {
    ctc * RequiredMultiplier(role) * (elapsed as real) / (daysInMonth as real)
  }

  /** productivity: revenue per unit of CTC, 0 without a positive CTC. */
  function Productivity(revenue: real, ctc: real): (p: real)
    ensures ctc > 0.0 ==> p * ctc == revenue
    ensures ctc <= 0.0 ==> p == 0.0
  {
    if ctc > 0.0 then revenue / ctc else 0.0
  }

  /**
   * The run-rate status: without a positive target, Amber for any revenue
   * and Red for none; otherwise Green on pace, Amber from 80% of the pace,
   * Red below.
   */
  function StatusOf(revenue: real, required: real): (s: RunRate)
    ensures required <= 0.0 ==> (s == Amber <==> revenue > 0.0) && s != Green
    ensures required > 0.0 ==> (s == Green <==> revenue >= required)
    ensures required > 0.0 ==> (s == Red <==> revenue < required * 0.8)
  {
    if required <= 0.0 then (if revenue > 0.0 then Amber else Red)
    else if revenue >= required then Green
    else if revenue >= required * 0.8 then Amber
    else Red
  }

  function Rank(s: RunRate): nat
  {
    match s
    case Red => 0
    case Amber => 1
    case Green => 2
  }

  /** More revenue against the same target never gives a worse status. */
  lemma StatusMonotone(rev1: real, rev2: real, required: real)
    requires rev1 <= rev2
    ensures Rank(StatusOf(rev1, required)) <= Rank(StatusOf(rev2, required))
  {
  }

  /** The revenue query: invoice totals in the month's window, per opportunity owner. */
  function RevenueMtd(rows: seq<RevenueRow>, ownerId: int, start: int, end: int): real
  {
    if rows == [] then 0.0
    else
      var r := rows[|rows| - 1];
      RevenueMtd(rows[..|rows| - 1], ownerId, start, end) +
        (if r.ownerId == Some(ownerId) && start <= r.invoiceDate <= end then r.totalAmount else 0.0)
  }

  datatype ProductivityRow = ProductivityRow(
    userId: int, role: string, monthlyCtc: real, revenue: real, productivity: real,
    requiredMult: real, requiredMtd: real, runRateGap: real, status: RunRate)

  /** The row the report computes for one user. */
  function RowFor(u: ReportUser, revenue: seq<RevenueRow>, start: int, end: int, elapsed: int, daysInMonth: int): (row: ProductivityRow)
    requires daysInMonth >= 1
    ensures row.userId == u.id && row.runRateGap == row.revenue - row.requiredMtd
    ensures row.status == StatusOf(row.revenue, row.requiredMtd)
  {
    var ctc := OrElse(u.monthlyCtc, 0.0);
    var role := RoleOf(u.teamRole);
    var rev := RevenueMtd(revenue, u.id, start, end);
    var req := RequiredMtd(ctc, role, elapsed, daysInMonth);
    ProductivityRow(u.id, role, ctc, rev, Productivity(rev, ctc), RequiredMultiplier(role), req, rev - req,
                    StatusOf(rev, req))
  }

  function CountStatus(rows: seq<ProductivityRow>, s: RunRate): (n: nat)
    ensures n <= |rows|
  {
    if rows == [] then 0 else CountStatus(rows[..|rows| - 1], s) + (if rows[|rows| - 1].status == s then 1 else 0)
  }

  function SumRevenue(rows: seq<ProductivityRow>): real
  {
    if rows == [] then 0.0 else SumRevenue(rows[..|rows| - 1]) + rows[|rows| - 1].revenue
  }

  function SumCtc(rows: seq<ProductivityRow>): real
  {
    if rows == [] then 0.0 else SumCtc(rows[..|rows| - 1]) + rows[|rows| - 1].monthlyCtc
  }

  /** One more row adds its revenue, its CTC and its status to the running figures. */
  lemma RowsStep(rows: seq<ProductivityRow>, row: ProductivityRow)
    ensures SumRevenue(rows + [row]) == SumRevenue(rows) + row.revenue
    ensures SumCtc(rows + [row]) == SumCtc(rows) + row.monthlyCtc
    ensures forall s :: CountStatus(rows + [row], s) == CountStatus(rows, s) + (if row.status == s then 1 else 0)
  {
    assert (rows + [row])[..|rows|] == rows;
  }

  /** Every row has exactly one status, so the three counts add up to the rows. */
  lemma {:induction false} CountsCoverRows(rows: seq<ProductivityRow>)
    ensures CountStatus(rows, Green) + CountStatus(rows, Amber) + CountStatus(rows, Red) == |rows|
  {
    if rows != [] {
      CountsCoverRows(rows[..|rows| - 1]);
    }
  }

  /**
   * `cluster_productivity`: one row per listed user, the green/amber/red
   * counts, and the revenue and CTC totals behind the average productivity.
   */
  method ClusterProductivity(users: seq<ReportUser>, revenue: seq<RevenueRow>, start: int, end: int,
                             elapsed: int, daysInMonth: int)
    returns (data: seq<ProductivityRow>, totalRevenue: real, totalCtc: real, green: nat, amber: nat, red: nat)
    requires daysInMonth >= 1
    ensures |data| == |users|
    ensures forall i :: 0 <= i < |users| ==> data[i] == RowFor(users[i], revenue, start, end, elapsed, daysInMonth)
    ensures totalRevenue == SumRevenue(data) && totalCtc == SumCtc(data)
    ensures green == CountStatus(data, Green) && amber == CountStatus(data, Amber) && red == CountStatus(data, Red)
    ensures green + amber + red == |users|
  {
    data := [];
    totalRevenue, totalCtc := 0.0, 0.0;
    green, amber, red := 0, 0, 0;
    var i := 0;
    while i < |users|
      invariant 0 <= i <= |users| && |data| == i
      invariant forall k :: 0 <= k < i ==> data[k] == RowFor(users[k], revenue, start, end, elapsed, daysInMonth)
      invariant totalRevenue == SumRevenue(data) && totalCtc == SumCtc(data)
      invariant green == CountStatus(data, Green) && amber == CountStatus(data, Amber) && red == CountStatus(data, Red)
    {
      var row := RowFor(users[i], revenue, start, end, elapsed, daysInMonth);
      totalRevenue := totalRevenue + row.revenue;
      totalCtc := totalCtc + row.monthlyCtc;
      if row.status == Green {
        green := green + 1;
      } else if row.status == Amber {
        amber := amber + 1;
      } else {
        red := red + 1;
      }
      RowsStep(data, row);
      data := data + [row];
      i := i + 1;
    }
    CountsCoverRows(data);
  }

  /** avg_productivity: total revenue over total CTC, 0 without a positive CTC. */
  function AverageProductivity(totalRevenue: real, totalCtc: real): real
  {
    Productivity(totalRevenue, totalCtc)
  }

  // ------------------------------------------------------------ aging

  datatype Bucket = Days0To30 | Days31To60 | Days61To90 | Over90

  /** The aging bucket of a number of days outstanding; negative days count as 0–30. */
  function BucketOf(days: int): (b: Bucket)
    ensures b == Days0To30 <==> days <= 30
    ensures b == Days31To60 <==> 30 < days <= 60
    ensures b == Days61To90 <==> 60 < days <= 90
    ensures b == Over90 <==> days > 90
  {
    if days <= 30 then Days0To30 else if days <= 60 then Days31To60 else if days <= 90 then Days61To90 else Over90
  }

  datatype AgingRow = AgingRow(invoiceId: nat, due: int, days: int, remaining: real, bucket: Bucket)

  /** The aging query: invoices of the month that are not Cancelled, within the cluster by opportunity owner. */
  predicate InAgingQuery(inv: Invoice, start: int, end: int, scope: Option<set<int>>, ownerOfQuote: map<int, int>)
  {
    start <= inv.invoiceDate <= end && inv.status != InvoiceCancelled &&
    (scope.None? || (inv.quoteId in ownerOfQuote && ownerOfQuote[inv.quoteId] in scope.value))
  }

  /** The query's rows, newest id first. */
  function AgingInvoices(invoices: seq<Invoice>, start: int, end: int, scope: Option<set<int>>, ownerOfQuote: map<int, int>)
    : seq<Invoice>
  {
    if invoices == [] then []
    else
      AgingInvoices(invoices[1..], start, end, scope, ownerOfQuote) +
        (if InAgingQuery(invoices[0], start, end, scope, ownerOfQuote) then [invoices[0]] else [])
  }

  /** The aging query lists exactly the invoices that pass its filter. */
  lemma {:induction false} AgingInvoicesMembers(invoices: seq<Invoice>, start: int, end: int, scope: Option<set<int>>,
                                                ownerOfQuote: map<int, int>)
    ensures forall inv :: inv in AgingInvoices(invoices, start, end, scope, ownerOfQuote) <==>
                          inv in invoices && InAgingQuery(inv, start, end, scope, ownerOfQuote)
  {
    if invoices != [] {
      assert invoices == [invoices[0]] + invoices[1..];
      AgingInvoicesMembers(invoices[1..], start, end, scope, ownerOfQuote);
    }
  }

  /** The row of an invoice with something outstanding. */
  function AgingRowOf(inv: Invoice, payments: seq<Payment>, today: int): AgingRow
  {
    var days := today - inv.dueDate;
    AgingRow(inv.id, inv.dueDate, days, Remaining(inv, payments), BucketOf(days))
  }

  /** The listed rows: invoices whose remaining amount is positive, in query order. */
  function AgingRows(invs: seq<Invoice>, payments: seq<Payment>, today: int): seq<AgingRow>
  {
    if invs == [] then []
    else
      var inv := invs[|invs| - 1];
      AgingRows(invs[..|invs| - 1], payments, today) +
        (if Remaining(inv, payments) > 0.0 then [AgingRowOf(inv, payments, today)] else [])
  }

  function InBucket(rows: seq<AgingRow>, b: Bucket): seq<AgingRow>
  {
    if rows == [] then []
    else InBucket(rows[..|rows| - 1], b) + (if rows[|rows| - 1].bucket == b then [rows[|rows| - 1]] else [])
  }

  /** Every listed row has something outstanding and sits in the bucket of its age. */
  lemma {:induction false} AgingRowsOutstanding(invs: seq<Invoice>, payments: seq<Payment>, today: int)
    ensures forall r :: r in AgingRows(invs, payments, today) ==> r.remaining > 0.0 && r.bucket == BucketOf(r.days)
  {
    if invs != [] {
      AgingRowsOutstanding(invs[..|invs| - 1], payments, today);
    }
  }

  /** A bucket holds exactly the rows of that bucket. */
  lemma {:induction false} InBucketMembers(rows: seq<AgingRow>, b: Bucket)
    ensures forall x :: x in InBucket(rows, b) <==> x in rows && x.bucket == b
  {
    if rows != [] {
      var last := rows[|rows| - 1];
      assert rows == rows[..|rows| - 1] + [last];
      InBucketMembers(rows[..|rows| - 1], b);
    }
  }

  function SumRemaining(rows: seq<AgingRow>): real
  {
    if rows == [] then 0.0 else SumRemaining(rows[..|rows| - 1]) + rows[|rows| - 1].remaining
  }

  /** exposure_60: the remaining amounts of rows more than 60 days outstanding. */
  function SumOver60(rows: seq<AgingRow>): real
  {
    if rows == [] then 0.0
    else SumOver60(rows[..|rows| - 1]) + (if rows[|rows| - 1].days > 60 then rows[|rows| - 1].remaining else 0.0)
  }

  /** One more invoice adds its row when something remains to be paid. */
  lemma AgingRowsStep(invs: seq<Invoice>, i: nat, payments: seq<Payment>, today: int)
    requires i < |invs|
    ensures AgingRows(invs[..i + 1], payments, today)
            == AgingRows(invs[..i], payments, today) +
               (if Remaining(invs[i], payments) > 0.0 then [AgingRowOf(invs[i], payments, today)] else [])
  {
    assert invs[..i + 1][..i] == invs[..i];
  }

  /** Appending one row extends its bucket and the two totals by that row only. */
  lemma AgingAppend(rows: seq<AgingRow>, row: AgingRow)
    ensures var s := rows + [row];
            s[..|s| - 1] == rows &&
            InBucket(s, Days0To30) == InBucket(rows, Days0To30) + (if row.bucket == Days0To30 then [row] else []) &&
            InBucket(s, Days31To60) == InBucket(rows, Days31To60) + (if row.bucket == Days31To60 then [row] else []) &&
            InBucket(s, Days61To90) == InBucket(rows, Days61To90) + (if row.bucket == Days61To90 then [row] else []) &&
            InBucket(s, Over90) == InBucket(rows, Over90) + (if row.bucket == Over90 then [row] else []) &&
            SumRemaining(s) == SumRemaining(rows) + row.remaining &&
            SumOver60(s) == SumOver60(rows) + (if row.days > 60 then row.remaining else 0.0)
  {
    var s := rows + [row];
    assert s[..|s| - 1] == rows;
  }

  /** The four buckets partition the rows. */
  lemma {:induction false} BucketsPartition(rows: seq<AgingRow>)
    ensures |InBucket(rows, Days0To30)| + |InBucket(rows, Days31To60)| +
            |InBucket(rows, Days61To90)| + |InBucket(rows, Over90)| == |rows|
  {
    if rows != [] {
      BucketsPartition(rows[..|rows| - 1]);
    }
  }

  /** The 60-day exposure is part of the outstanding total: 0 <= exposure_60 <= total_outstanding. */
  lemma {:induction false} ExposureWithinOutstanding(rows: seq<AgingRow>)
    requires forall r :: r in rows ==> r.remaining > 0.0
    ensures 0.0 <= SumOver60(rows) <= SumRemaining(rows)
  {
    if rows != [] {
      var init := rows[..|rows| - 1];
      assert forall r :: r in init ==> r in rows;
      assert rows[|rows| - 1] in rows;
      ExposureWithinOutstanding(init);
    }
  }

  /** The four buckets and the two totals are those of the listed rows. */
  predicate AgingTallied(rows: seq<AgingRow>, upTo30: seq<AgingRow>, upTo60: seq<AgingRow>, upTo90: seq<AgingRow>,
                         over90: seq<AgingRow>, totalOutstanding: real, exposure60: real)
  {
    upTo30 == InBucket(rows, Days0To30) && upTo60 == InBucket(rows, Days31To60) &&
    upTo90 == InBucket(rows, Days61To90) && over90 == InBucket(rows, Over90) &&
    totalOutstanding == SumRemaining(rows) && exposure60 == SumOver60(rows)
  }

  /**
   * The body of the aging loop for an invoice with something remaining: the
   * totals grow, the row joins the bucket its age selects and the row list.
   */
  method TallyRow(rows: seq<AgingRow>, upTo30: seq<AgingRow>, upTo60: seq<AgingRow>, upTo90: seq<AgingRow>,
                  over90: seq<AgingRow>, totalOutstanding: real, exposure60: real, row: AgingRow)
    returns (rows': seq<AgingRow>, upTo30': seq<AgingRow>, upTo60': seq<AgingRow>, upTo90': seq<AgingRow>,
             over90': seq<AgingRow>, totalOutstanding': real, exposure60': real)
    requires AgingTallied(rows, upTo30, upTo60, upTo90, over90, totalOutstanding, exposure60)
    requires row.bucket == BucketOf(row.days)
    ensures rows' == rows + [row]
    ensures AgingTallied(rows', upTo30', upTo60', upTo90', over90', totalOutstanding', exposure60')
  {
    AgingAppend(rows, row);
    totalOutstanding', exposure60' := totalOutstanding + row.remaining, exposure60;
    if row.days > 60 {
      exposure60' := exposure60 + row.remaining;
    }
    upTo30', upTo60', upTo90', over90' := upTo30, upTo60, upTo90, over90;
    if row.days <= 30 {
      upTo30' := upTo30 + [row];
    } else if row.days <= 60 {
      upTo60' := upTo60 + [row];
    } else if row.days <= 90 {
      upTo90' := upTo90 + [row];
    } else {
      over90' := over90 + [row];
    }
    rows' := rows + [row];
  }

  /**
   * `cluster_collections_aging`: skips invoices with nothing remaining,
   * ages the rest from their due date, sorts them into the four buckets and
   * totals the outstanding and the over-60-days exposure.
   */
  method CollectionsAging(invoices: seq<Invoice>, payments: seq<Payment>, start: int, end: int, today: int,
                          scope: Option<set<int>>, ownerOfQuote: map<int, int>)
    returns (rows: seq<AgingRow>, upTo30: seq<AgingRow>, upTo60: seq<AgingRow>, upTo90: seq<AgingRow>,
             over90: seq<AgingRow>, totalOutstanding: real, exposure60: real)
    ensures rows == AgingRows(AgingInvoices(invoices, start, end, scope, ownerOfQuote), payments, today)
    ensures upTo30 == InBucket(rows, Days0To30) && upTo60 == InBucket(rows, Days31To60)
    ensures upTo90 == InBucket(rows, Days61To90) && over90 == InBucket(rows, Over90)
    ensures totalOutstanding == SumRemaining(rows) && exposure60 == SumOver60(rows)
  {
    var qs := AgingInvoices(invoices, start, end, scope, ownerOfQuote);
    rows, upTo30, upTo60, upTo90, over90 := [], [], [], [], [];
    totalOutstanding, exposure60 := 0.0, 0.0;
    var i := 0;
    while i < |qs|
      invariant 0 <= i <= |qs|
      invariant rows == AgingRows(qs[..i], payments, today)
      invariant AgingTallied(rows, upTo30, upTo60, upTo90, over90, totalOutstanding, exposure60)
    {
      var inv := qs[i];
      AgingRowsStep(qs, i, payments, today);
      var remaining := Remaining(inv, payments);
      if remaining > 0.0 {
        var days := today - inv.dueDate;
        var row := AgingRow(inv.id, inv.dueDate, days, remaining, BucketOf(days));
        rows, upTo30, upTo60, upTo90, over90, totalOutstanding, exposure60 :=
          TallyRow(rows, upTo30, upTo60, upTo90, over90, totalOutstanding, exposure60, row);
      }
      i := i + 1;
    }
    assert qs[..i] == qs;
  }

  // ------------------------------------------------------------ margin quality

  /**
   * `created_at >= start_date, created_at <= end_date` on a datetime column:
   * SQL widens each date to its midnight.
   */
  predicate CreatedWithin(t: int, start: int, end: int)
  {
    Midnight(start) <= t <= Midnight(end)
  }

  /**
   * The month filter admits every moment of the days before the last one but,
   * of the last day, only its first instant: a project created later on the
   * month's last day is not listed.
   */
  lemma CreatedWithinDays(t: int, start: int, end: int)
    ensures CreatedWithin(t, start, end) <==> start <= DayOf(t) < end || (start <= end && t == Midnight(end))
  {
  }

  /**
   * The margin-quality query: projects created in the month, of the chosen
   * client, only the flagged ones with flag_only, of the chosen account
   * manager, and within the cluster by the account manager or, for a project
   * without one, by the quote's opportunity owner.
   */
  predicate InMarginQuery(p: Project, start: int, end: int, client: Option<int>, flagOnly: bool, threshold: real,
                          responsible: Option<int>, scope: Option<set<int>>, ownerOfQuote: map<int, int>)
    reads p
  {
    CreatedWithin(p.createdAt, start, end) &&
    (client.None? || p.clientId == client) &&
    (!flagOnly || p.marginPercent < threshold) &&
    (responsible.None? || p.accountManagerId == responsible) &&
    (scope.None? ||
     (p.accountManagerId.Some? && p.accountManagerId.value in scope.value) ||
     (p.accountManagerId.None? && p.quoteId in ownerOfQuote && ownerOfQuote[p.quoteId] in scope.value))
  }

  /** The query's rows, newest id first: exactly the projects that pass its filter. */
  function MarginRows(ps: seq<Project>, start: int, end: int, client: Option<int>, flagOnly: bool, threshold: real,
                      responsible: Option<int>, scope: Option<set<int>>, ownerOfQuote: map<int, int>): (r: seq<Project>)
    reads ps
    ensures forall p :: p in r ==> p in ps && InMarginQuery(p, start, end, client, flagOnly, threshold, responsible, scope, ownerOfQuote)
    ensures forall i :: 0 <= i < |ps| && InMarginQuery(ps[i], start, end, client, flagOnly, threshold, responsible, scope, ownerOfQuote)
                        ==> ps[i] in r
  {
    if ps == [] then []
    else
      assert ps == [ps[0]] + ps[1..];
      MarginRows(ps[1..], start, end, client, flagOnly, threshold, responsible, scope, ownerOfQuote) +
        (if InMarginQuery(ps[0], start, end, client, flagOnly, threshold, responsible, scope, ownerOfQuote) then [ps[0]] else [])
  }

  /** A project with an account manager is placed in a cluster by that manager alone, whoever owns the opportunity. */
  lemma AccountManagerDecidesScope(p: Project, start: int, end: int, team: set<int>, ownerOfQuote: map<int, int>)
    requires CreatedWithin(p.createdAt, start, end) && p.accountManagerId.Some?
    ensures InMarginQuery(p, start, end, None, false, 0.0, None, Some(team), ownerOfQuote) <==> p.accountManagerId.value in team
  {
  }

  function SumContract(ps: seq<Project>): real
    reads ps
  {
    if ps == [] then 0.0 else SumContract(ps[..|ps| - 1]) + ps[|ps| - 1].contractValue
  }

  function SumProjectCost(ps: seq<Project>): real
    reads ps
  {
    if ps == [] then 0.0 else SumProjectCost(ps[..|ps| - 1]) + ps[|ps| - 1].totalCost
  }

  /** flagged_count: rows whose stored margin percentage is below the threshold. */
  function CountFlagged(ps: seq<Project>, threshold: real): (n: nat)
    reads ps
    ensures n <= |ps|
  {
    if ps == [] then 0
    else CountFlagged(ps[..|ps| - 1], threshold) + (if ps[|ps| - 1].marginPercent < threshold then 1 else 0)
  }

  /** With flag_only every listed project is flagged. */
  lemma {:induction false} FlagOnlyListsFlagged(rows: seq<Project>, threshold: real)
    requires forall p :: p in rows ==> p.marginPercent < threshold
    ensures CountFlagged(rows, threshold) == |rows|
  {
    if rows != [] {
      var init := rows[..|rows| - 1];
      assert forall p :: p in init ==> p in rows;
      assert rows[|rows| - 1] in rows;
      FlagOnlyListsFlagged(init, threshold);
    }
  }

  /**
   * `cluster_margin_quality`: totals of contract value and cost over the
   * listed projects, the number flagged, and the overall margin percentage
   * of the totals.
   */
  method MarginQuality(ps: seq<Project>, start: int, end: int, client: Option<int>, flagOnly: bool, responsible: Option<int>,
                       settings: seq<MarginSetting>, scope: Option<set<int>>, ownerOfQuote: map<int, int>)
    returns (rows: seq<Project>, totalContract: real, totalCost: real, flagged: nat, overallMarginPct: real)
    ensures var threshold := Threshold(settings);
            rows == MarginRows(ps, start, end, client, flagOnly, threshold, responsible, scope, ownerOfQuote) &&
            flagged == CountFlagged(rows, threshold)
    ensures totalContract == SumContract(rows) && totalCost == SumProjectCost(rows)
    ensures overallMarginPct == MarginPercent(totalContract, totalCost)
    ensures flagOnly ==> flagged == |rows|
  {
    var threshold := Threshold(settings);
    rows := MarginRows(ps, start, end, client, flagOnly, threshold, responsible, scope, ownerOfQuote);
    totalContract, totalCost, flagged := 0.0, 0.0, 0;
    var i := 0;
    while i < |rows|
      invariant 0 <= i <= |rows|
      invariant totalContract == SumContract(rows[..i]) && totalCost == SumProjectCost(rows[..i])
      invariant flagged == CountFlagged(rows[..i], threshold)
    {
      var p := rows[i];
      assert rows[..i + 1][..i] == rows[..i];
      totalContract := totalContract + p.contractValue;
      totalCost := totalCost + p.totalCost;
      if p.marginPercent < threshold {
        flagged := flagged + 1;
      }
      i := i + 1;
    }
    assert rows[..i] == rows;
    overallMarginPct := 0.0;
    if totalContract > 0.0 {
      overallMarginPct := ((totalContract - totalCost) * 100.0) / totalContract;
    }
    if flagOnly {
      FlagOnlyListsFlagged(rows, threshold);
    }
  }
}
