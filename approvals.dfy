/**
 * Approval rules and the sequential approval rows of a quote
 * (app/quotes/routes.py, app/models.py): which rules match a total, the rows
 * a request creates, who may act on a row, and the row updates of a decision.
 */
module Approvals {
  import opened Wrappers
  import opened Numbers

  /** An ApprovalRule row; a NULL max_amount means unbounded. */
  datatype Rule = Rule(id: int, name: string, minAmount: Option<real>, maxAmount: Option<real>, isActive: bool, sortOrder: int)

  /** An ApprovalRuleStep row; "" stands for a NULL approver_role. */
  datatype Step = Step(id: int, ruleId: int, stepOrder: int, approverRole: string, approverUserId: Option<int>, isActive: bool)

  datatype ApprovalStatus = Waiting | Pending | Approved | Rejected | Cancelled

  /** A QuoteApproval row of one quote. */
  datatype Approval = Approval(
    ruleId: int, ruleStepId: int, stepOrder: int,
    approverRole: string, approverUserId: Option<int>,
    status: ApprovalStatus, remark: string, actedBy: Option<int>, actedAt: Option<int>)

  /** (sort_order, id) ascending, the order rules are read in. */
  predicate RuleBefore(a: Rule, b: Rule)
  {
    a.sortOrder < b.sortOrder || (a.sortOrder == b.sortOrder && a.id < b.id)
  }

  predicate RulesOrdered(rules: seq<Rule>)
  {
    forall i, j :: 0 <= i < j < |rules| ==> RuleBefore(rules[i], rules[j])
  }

  /** min_amount (NULL reads as 0) ≤ total, and total ≤ max_amount unless max_amount is NULL. */
  predicate InRange(r: Rule, total: real)
  {
    D(FromOption(r.minAmount), 0.0) <= total && (r.maxAmount.None? || total <= r.maxAmount.value)
  }

  /** `_matching_rules`: the active rules whose range holds the total, in the order given. */
  function MatchingRules(rules: seq<Rule>, total: real): (m: seq<Rule>)
    ensures forall r :: r in m <==> r in rules && r.isActive && InRange(r, total)
    ensures |m| <= |rules|
  {
    if rules == [] then []
    else
      var rest := MatchingRules(rules[1..], total);
      if rules[0].isActive && InRange(rules[0], total) then [rules[0]] + rest else rest
  }

  /** The matched rules keep the (sort_order, id) order of the rule table. */
  lemma {:induction false} MatchingRulesOrdered(rules: seq<Rule>, total: real)
    requires RulesOrdered(rules)
    ensures RulesOrdered(MatchingRules(rules, total))
  {
    if rules != [] {
      MatchingRulesOrdered(rules[1..], total);
      var rest := MatchingRules(rules[1..], total);
      forall r | r in rest ensures RuleBefore(rules[0], r) {
        var j :| 0 <= j < |rules[1..]| && rules[1..][j] == r;
        assert rules[j + 1] == r;
      }
    }
  }

  /** A rule with min ≤ max matches exactly the totals in [min, max]. */
  lemma MatchingRuleInterval(rules: seq<Rule>, r: Rule, total: real)
    requires r in rules && r.isActive && r.minAmount.Some? && r.maxAmount.Some?
    ensures r in MatchingRules(rules, total) <==> r.minAmount.value <= total <= r.maxAmount.value
  {
  }

  /** The active steps of one rule, in the (step_order, id) order of `steps`. */
  function ActiveStepsOf(steps: seq<Step>, ruleId: int): (r: seq<Step>)
    ensures forall s :: s in r <==> s in steps && s.ruleId == ruleId && s.isActive
    ensures |r| <= |steps|
  {
    if steps == [] then []
    else
      var rest := ActiveStepsOf(steps[1..], ruleId);
      if steps[0].ruleId == ruleId && steps[0].isActive then [steps[0]] + rest else rest
  }

  /** The QuoteApproval row a request adds for one step: WAITING, the approver copied. */
  function NewRow(rule: Rule, s: Step, order: int): (a: Approval)
    ensures a.status == Waiting && a.stepOrder == order
    ensures a.approverRole == s.approverRole && a.approverUserId == s.approverUserId
  {
    Approval(rule.id, s.id, order, s.approverRole, s.approverUserId, Waiting, "", None, None)
  }

  /** The rows for one rule's steps, numbered start + 1, start + 2, …. */
  function RowsFor(rule: Rule, st: seq<Step>, start: int): (rows: seq<Approval>)
    ensures |rows| == |st|
  {
    seq(|st|, i requires 0 <= i < |st| => NewRow(rule, st[i], start + i + 1))
  }

  /**
   * The rows `request_approval` builds from the matched rules: for each rule in
   * order, one row per active step, numbered consecutively across rules.
   * None when some rule has no active step (the request then stops).
   */
  function Plan(rules: seq<Rule>, steps: seq<Step>, start: int): Option<seq<Approval>>
    decreases |rules|
  {
    if rules == [] then Some([])
    else
      var st := ActiveStepsOf(steps, rules[0].id);
      if st == [] then None
      else Then(RowsFor(rules[0], st, start), Plan(rules[1..], steps, start + |st|))
  }

  /** Rows built for earlier rules in front of the plan for the rest (None stays None). */
  function Then(acc: seq<Approval>, p: Option<seq<Approval>>): Option<seq<Approval>>
  {
    match p
    case None => None
    case Some(rest) => Some(acc + rest)
  }

  /**
   * A request fails exactly when some matched rule has no active step; otherwise
   * it has at least one row per rule, numbered start + 1, start + 2, …, all WAITING.
   */
  lemma PlanShape(rules: seq<Rule>, steps: seq<Step>, start: int)
    ensures var p := Plan(rules, steps, start);
            (p.None? <==> exists k :: 0 <= k < |rules| && ActiveStepsOf(steps, rules[k].id) == [])
            && (p.Some? ==> |p.value| >= |rules|
                            && forall i :: 0 <= i < |p.value| ==> p.value[i].stepOrder == start + i + 1 && p.value[i].status == Waiting)
  {
    PlanFailsOnStepless(rules, steps, start);
    if Plan(rules, steps, start).Some? {
      forall i | 0 <= i < |Plan(rules, steps, start).value|
        ensures Plan(rules, steps, start).value[i].stepOrder == start + i + 1
        ensures Plan(rules, steps, start).value[i].status == Waiting
      {
        var r, s := PlanRowSource(rules, steps, start, i);
      }
    }
  }

  /** The plan fails exactly on a rule without active steps, and has at least one row per rule otherwise. */
  lemma {:induction false} PlanFailsOnStepless(rules: seq<Rule>, steps: seq<Step>, start: int)
    ensures var p := Plan(rules, steps, start);
            (p.None? <==> exists k :: 0 <= k < |rules| && ActiveStepsOf(steps, rules[k].id) == [])
            && (p.Some? ==> |p.value| >= |rules|)
    decreases |rules|
  {
    if rules != [] {
      var st := ActiveStepsOf(steps, rules[0].id);
      if st != [] {
        PlanFailsOnStepless(rules[1..], steps, start + |st|);
        var rest := Plan(rules[1..], steps, start + |st|);
        if rest.None? {
          var k :| 0 <= k < |rules[1..]| && ActiveStepsOf(steps, rules[1..][k].id) == [];
          assert rules[1..][k] == rules[k + 1];
        } else {
          forall k | 0 <= k < |rules|
            ensures ActiveStepsOf(steps, rules[k].id) != []
          {
            if k > 0 {
              assert rules[k] == rules[1..][k - 1];
            }
          }
        }
      }
    }
  }

  /** Row a is the row a request makes for an active step of one of the rules, at position order. */
  ghost predicate FromStep(a: Approval, rules: seq<Rule>, steps: seq<Step>, order: int)
  {
    exists r, s :: r in rules && s in steps && s.isActive && s.ruleId == r.id && a == NewRow(r, s, order)
  }

  /** Every planned row comes from an active step of a matched rule, approvers copied. */
  lemma PlanRowsFromSteps(rules: seq<Rule>, steps: seq<Step>, start: int)
    requires Plan(rules, steps, start).Some?
    ensures var rows := Plan(rules, steps, start).value;
            forall i :: 0 <= i < |rows| ==> FromStep(rows[i], rules, steps, start + i + 1)
  {
    forall i | 0 <= i < |Plan(rules, steps, start).value|
      ensures FromStep(Plan(rules, steps, start).value[i], rules, steps, start + i + 1)
    {
      var r, s := PlanRowSource(rules, steps, start, i);
    }
  }

  /** The rule and the active step the i-th planned row was made from. */
  lemma {:induction false} PlanRowSource(rules: seq<Rule>, steps: seq<Step>, start: int, i: int) returns (r: Rule, s: Step)
    requires Plan(rules, steps, start).Some? && 0 <= i < |Plan(rules, steps, start).value|
    ensures r in rules && s in steps && s.isActive && s.ruleId == r.id
    ensures Plan(rules, steps, start).value[i] == NewRow(r, s, start + i + 1)
    decreases |rules|
  {
    assert rules != [];
    var st := ActiveStepsOf(steps, rules[0].id);
    var rest := Plan(rules[1..], steps, start + |st|).value;
    var rows := RowsFor(rules[0], st, start) + rest;
    assert Plan(rules, steps, start).value == rows;
    if i < |st| {
      r, s := rules[0], st[i];
      assert s in st;
      assert rows[i] == RowsFor(rules[0], st, start)[i];
    } else {
      var j := i - |st|;
      assert rows[i] == rest[j];
      r, s := PlanRowSource(rules[1..], steps, start + |st|, j);
      assert r in rules;
    }
  }

  predicate Open(st: ApprovalStatus)
  {
    st == Waiting || st == Pending
  }

  /** Rows numbered 1..N by position, as `request_approval` creates them. */
  predicate Numbered(rows: seq<Approval>)
  {
    forall i :: 0 <= i < |rows| ==> rows[i].stepOrder == i + 1
  }

  /** At most one PENDING row, and it comes before every WAITING row. */
  predicate Sequential(rows: seq<Approval>)
  {
    (forall i, j :: 0 <= i < |rows| && 0 <= j < |rows| && rows[i].status == Pending && rows[j].status == Pending ==> i == j)
    && (forall i, j :: 0 <= i < |rows| && 0 <= j < |rows| && rows[i].status == Pending && rows[j].status == Waiting ==>
          rows[i].stepOrder < rows[j].stepOrder)
  }

  /** Row i comes before row j in (step_order, id) order; ids grow with position. */
  predicate RowBefore(rows: seq<Approval>, i: nat, j: nat)
    requires i < |rows| && j < |rows|
  {
    rows[i].stepOrder < rows[j].stepOrder || (rows[i].stepOrder == rows[j].stepOrder && i < j)
  }

  /** The first WAITING row by (step_order, id), as `_activate_next_step_if_any` reads it. */
  function FirstWaiting(rows: seq<Approval>): (k: Option<nat>)
    ensures k.None? <==> forall i :: 0 <= i < |rows| ==> rows[i].status != Waiting
    ensures k.Some? ==> k.value < |rows| && rows[k.value].status == Waiting
    ensures k.Some? ==> forall j :: 0 <= j < |rows| && rows[j].status == Waiting && j != k.value ==> RowBefore(rows, k.value, j)
  {
    if rows == [] then None
    else
      var n := |rows| - 1;
      var prev := FirstWaiting(rows[..n]);
      if rows[n].status == Waiting && (prev.None? || rows[n].stepOrder < rows[prev.value].stepOrder) then Some(n)
      else prev
  }

  /** `_activate_next_step_if_any`: the first WAITING row becomes PENDING. */
  function Activate(rows: seq<Approval>): (r: seq<Approval>)
    ensures |r| == |rows|
  {
    match FirstWaiting(rows)
    case None => rows
    case Some(k) => rows[k := rows[k].(status := Pending)]
  }

  /** The row updates of a decision: status, remark, actor and time. */
  function Decide(rows: seq<Approval>, k: nat, st: ApprovalStatus, remark: string, actor: int, now: int): (r: seq<Approval>)
    requires k < |rows|
    ensures |r| == |rows|
  {
    rows[k := rows[k].(status := st, remark := remark, actedBy := Some(actor), actedAt := Some(now))]
  }

  /** The bulk update of a rejection: every WAITING or PENDING row becomes CANCELLED. */
  function CancelOpen(rows: seq<Approval>): (r: seq<Approval>)
    ensures |r| == |rows|
    ensures forall i :: 0 <= i < |rows| ==> !Open(r[i].status)
  {
    seq(|rows|, i requires 0 <= i < |rows| => if Open(rows[i].status) then rows[i].(status := Cancelled) else rows[i])
  }

  predicate NoneOpen(rows: seq<Approval>)
  {
    forall i :: 0 <= i < |rows| ==> !Open(rows[i].status)
  }

  function CountOpen(rows: seq<Approval>): nat
  {
    if rows == [] then 0 else CountOpen(rows[..|rows| - 1]) + (if Open(rows[|rows| - 1].status) then 1 else 0)
  }

  /** The rows a started request holds: the first PENDING, all others WAITING, numbered 1..N. */
  lemma {:induction false} StartedRequestIsSequential(rows: seq<Approval>)
    requires |rows| > 0 && Numbered(rows)
    requires forall i :: 0 <= i < |rows| ==> rows[i].status == Waiting
    ensures FirstWaiting(rows) == Some(0)
    ensures var r := Activate(rows);
            Numbered(r) && Sequential(r) && r[0].status == Pending
            && forall i :: 1 <= i < |r| ==> r[i].status == Waiting
  {
    FirstWaitingIsLowest(rows, 0);
  }

  /** Under Numbered, the first WAITING row is the WAITING row at the lowest position. */
  lemma FirstWaitingIsLowest(rows: seq<Approval>, j: nat)
    requires Numbered(rows) && j < |rows| && rows[j].status == Waiting
    ensures FirstWaiting(rows).Some? && FirstWaiting(rows).value <= j
  {
    var k := FirstWaiting(rows).value;
    if k != j {
      assert RowBefore(rows, k, j);
    }
  }

  /**
   * APPROVE on the PENDING row keeps the workflow sequential: the approved row
   * leaves, the first WAITING row (if any) becomes the only PENDING one.
   */
  lemma {:induction false} ApproveKeepsSequential(rows: seq<Approval>, k: nat, remark: string, actor: int, now: int)
    requires Numbered(rows) && Sequential(rows) && k < |rows| && rows[k].status == Pending
    ensures var r := Activate(Decide(rows, k, Approved, remark, actor, now));
            Numbered(r) && Sequential(r) && r[k].status == Approved
  {
    var d := Decide(rows, k, Approved, remark, actor, now);
    var r := Activate(d);
    assert forall i :: 0 <= i < |d| && i != k ==> d[i] == rows[i];
    assert forall i :: 0 <= i < |d| ==> d[i].status != Pending;
    match FirstWaiting(d)
    case None =>
    case Some(w) =>
      assert w != k;
      forall j | 0 <= j < |r| && r[j].status == Waiting ensures r[w].stepOrder < r[j].stepOrder {
        assert d[j].status == Waiting && j != w;
        assert RowBefore(d, w, j);
      }
  }

  /** APPROVE removes exactly one open row, so a request ends after as many approvals as it has rows. */
  lemma ApproveClosesOneRow(rows: seq<Approval>, k: nat, remark: string, actor: int, now: int)
    requires k < |rows| && rows[k].status == Pending
    ensures CountOpen(Activate(Decide(rows, k, Approved, remark, actor, now))) == CountOpen(rows) - 1
  {
    var d := Decide(rows, k, Approved, remark, actor, now);
    CountOpenUpdate(rows, k, rows[k].(status := Approved, remark := remark, actedBy := Some(actor), actedAt := Some(now)));
    match FirstWaiting(d)
    case None =>
    case Some(w) =>
      CountOpenUpdate(d, w, d[w].(status := Pending));
  }

  lemma {:induction false} CountOpenUpdate(rows: seq<Approval>, k: nat, a: Approval)
    requires k < |rows|
    ensures CountOpen(rows[k := a]) + (if Open(rows[k].status) then 1 else 0)
            == CountOpen(rows) + (if Open(a.status) then 1 else 0)
  {
    var n := |rows| - 1;
    if k < n {
      assert rows[k := a][..n] == rows[..n][k := a];
      CountOpenUpdate(rows[..n], k, a);
    } else {
      assert rows[k := a][..n] == rows[..n];
    }
  }

  /** REJECT leaves no open row, keeps the rejected row REJECTED, and so stays sequential. */
  lemma RejectClosesAll(rows: seq<Approval>, k: nat, remark: string, actor: int, now: int)
    requires k < |rows|
    ensures var r := CancelOpen(Decide(rows, k, Rejected, remark, actor, now));
            NoneOpen(r) && Sequential(r) && r[k].status == Rejected && CountOpen(r) == 0
  {
    var r := CancelOpen(Decide(rows, k, Rejected, remark, actor, now));
    NoneOpenCount(r);
  }

  lemma {:induction false} NoneOpenCount(rows: seq<Approval>)
    ensures NoneOpen(rows) <==> CountOpen(rows) == 0
  {
    if rows != [] {
      NoneOpenCount(rows[..|rows| - 1]);
      if !NoneOpen(rows) {
        var i :| 0 <= i < |rows| && Open(rows[i].status);
        if i < |rows| - 1 {
          assert rows[..|rows| - 1][i] == rows[i];
        }
      }
    }
  }

  /** `_user_can_act_on`: the assigned user (a non-zero id), or, checked independently, a holder of the assigned role. */
  predicate CanActOn(a: Approval, userId: int, roleName: Option<string>)
  {
    (a.approverUserId.Some? && a.approverUserId.value != 0 && a.approverUserId.value == userId)
    || (a.approverRole != "" && a.approverRole == OrElse(roleName, ""))
  }

  /**
   * On a row with a role that names some other user, exactly the holders of
   * that role may act: the role is checked even when a user is assigned.
   */
  lemma RoleHolderMayActOnUserStep(a: Approval, userId: int, roleName: Option<string>)
    requires a.approverRole != "" && a.approverUserId.Some? && a.approverUserId != Some(userId)
    ensures CanActOn(a, userId, roleName) <==> roleName == Some(a.approverRole)
  {
  }

  /** Nobody without the assigned id or a matching role may act; a user without a role can act only as the named user. */
  lemma CanActOnRequiresAssignment(a: Approval, userId: int)
    requires a.approverUserId != Some(userId)
    ensures !CanActOn(a, userId, None)
  {
  }

  /** Rule form checks: a name, and min ≤ max when a max is given. */
  datatype RuleError = NameRequired | MinAboveMax

  datatype RuleCheck = RuleOk(minAmount: real, maxAmount: Option<real>) | RuleRejected(error: RuleError)

  /**
   * The create/update branch of `approval_rules_master`: min via `_d` (blank
   * reads as 0), a blank max means unbounded.
   */
  function CheckRuleForm(name: string, minRaw: Raw, maxRaw: string): (c: RuleCheck)
    ensures c.RuleOk? ==> !Text.IsBlank(name)
    ensures c.RuleOk? && c.maxAmount.Some? ==> c.minAmount <= c.maxAmount.value
    ensures Text.IsBlank(name) ==> c == RuleRejected(NameRequired)
    ensures c.RuleRejected? && !Text.IsBlank(name) ==>
              c.error == MinAboveMax && !Text.IsBlank(maxRaw) && D(minRaw, 0.0) > D(Text(Text.Strip(maxRaw)), 0.0)
    ensures c.RuleOk? ==> c.minAmount == D(minRaw, 0.0)
    ensures c.RuleOk? ==> (c.maxAmount.None? <==> Text.IsBlank(maxRaw))
    ensures c.RuleOk? && c.maxAmount.Some? ==> c.maxAmount.value == D(Text(Text.Strip(maxRaw)), 0.0)
  {
    var minAmt := D(minRaw, 0.0);
    var mx := Text.Strip(maxRaw);
    var maxAmt := if mx == "" then None else Some(D(Text(mx), 0.0));
    if Text.IsBlank(name) then RuleRejected(NameRequired)
    else if maxAmt.Some? && minAmt > maxAmt.value then RuleRejected(MinAboveMax)
    else RuleOk(minAmt, maxAmt)
  }

  /** An accepted bounded rule matches a non-empty range: its own minimum. */
  lemma AcceptedRuleMatchesSomething(name: string, minRaw: Raw, maxRaw: string, id: int, sortOrder: int)
    requires CheckRuleForm(name, minRaw, maxRaw).RuleOk?
    ensures var c := CheckRuleForm(name, minRaw, maxRaw);
            var r := Rule(id, name, Some(c.minAmount), c.maxAmount, true, sortOrder);
            InRange(r, c.minAmount)
  {
  }

  /** `step_add` / `step_update`: a step needs a role or a non-zero numeric user id. */
  predicate StepHasApprover(role: string, userRaw: string)
  {
    var r := Text.Strip(role);
    var u := Text.Strip(userRaw);
    r != "" || (Text.IsDigits(u) && DigitsValue(u) != 0)
  }

  /** The approver a valid step form stores: the trimmed role (or NULL) and the numeric user (or NULL). */
  function StepApprover(role: string, userRaw: string): (p: (string, Option<int>))
    ensures StepHasApprover(role, userRaw) ==> p.0 != "" || (p.1.Some? && p.1.value != 0)
  {
    var u := Text.Strip(userRaw);
    (Text.Strip(role), if Text.IsDigits(u) then Some(DigitsValue(u) as int) else None)
  }

  /** A step or a rule can be deleted only while no QuoteApproval row refers to it. */
  predicate StepDeletable(stepId: int, all: seq<Approval>)
  {
    forall i :: 0 <= i < |all| ==> all[i].ruleStepId != stepId
  }

  predicate RuleDeletable(ruleId: int, all: seq<Approval>)
  {
    forall i :: 0 <= i < |all| ==> all[i].ruleId != ruleId
  }

  /** `QuoteApproval.query.filter_by(rule_step_id=...).count()`. */
  function StepUses(all: seq<Approval>, stepId: int): (n: nat)
    ensures n <= |all|
    ensures n == 0 <==> StepDeletable(stepId, all)
  {
    if all == [] then 0
    else StepUses(all[1..], stepId) + (if all[0].ruleStepId == stepId then 1 else 0)
  }

  /** `QuoteApproval.query.filter_by(rule_id=...).count()`. */
  function RuleUses(all: seq<Approval>, ruleId: int): (n: nat)
    ensures n <= |all|
    ensures n == 0 <==> RuleDeletable(ruleId, all)
  {
    if all == [] then 0
    else RuleUses(all[1..], ruleId) + (if all[0].ruleId == ruleId then 1 else 0)
  }

  datatype DeleteOutcome = DeleteNotFound | InUse | Deleted

  /**
   * The step_delete action: `get_or_404` on the id, then a step some
   * QuoteApproval row uses is refused; otherwise exactly that step goes.
   */
  function DeleteStep(steps: seq<Step>, stepId: int, all: seq<Approval>): (r: (DeleteOutcome, seq<Step>))
    ensures r.0 == DeleteNotFound <==> forall k :: 0 <= k < |steps| ==> steps[k].id != stepId
    ensures r.0 == Deleted <==> (exists k :: 0 <= k < |steps| && steps[k].id == stepId) && StepDeletable(stepId, all)
    ensures r.0 == Deleted ==> forall x :: x in r.1 <==> x in steps && x.id != stepId
    ensures r.0 != Deleted ==> r.1 == steps
  {
    if forall k :: 0 <= k < |steps| ==> steps[k].id != stepId then (DeleteNotFound, steps)
    else if StepUses(all, stepId) > 0 then (InUse, steps)
    else (Deleted, StepsWithout(steps, stepId))
  }

  function StepsWithout(steps: seq<Step>, stepId: int): (r: seq<Step>)
    ensures forall x :: x in r <==> x in steps && x.id != stepId
  {
    if steps == [] then []
    else (if steps[0].id == stepId then [] else [steps[0]]) + StepsWithout(steps[1..], stepId)
  }

  /**
   * `delete_approval_rule`: `get_or_404` on the id, then a rule some
   * QuoteApproval row uses is refused; otherwise the rule goes, and its steps
   * with it (the `steps` backref cascades "all, delete-orphan").
   */
  function DeleteRule(rules: seq<Rule>, steps: seq<Step>, ruleId: int, all: seq<Approval>): (r: (DeleteOutcome, seq<Rule>, seq<Step>))
    ensures r.0 == DeleteNotFound <==> forall k :: 0 <= k < |rules| ==> rules[k].id != ruleId
    ensures r.0 == Deleted <==> (exists k :: 0 <= k < |rules| && rules[k].id == ruleId) && RuleDeletable(ruleId, all)
    ensures r.0 == Deleted ==>
              (forall x :: x in r.1 <==> x in rules && x.id != ruleId) &&
              (forall x :: x in r.2 <==> x in steps && x.ruleId != ruleId)
    ensures r.0 != Deleted ==> r.1 == rules && r.2 == steps
  {
    if forall k :: 0 <= k < |rules| ==> rules[k].id != ruleId then (DeleteNotFound, rules, steps)
    else if RuleUses(all, ruleId) > 0 then (InUse, rules, steps)
    else (Deleted, RulesWithout(rules, ruleId), StepsOfOtherRules(steps, ruleId))
  }

  function RulesWithout(rules: seq<Rule>, ruleId: int): (r: seq<Rule>)
    ensures forall x :: x in r <==> x in rules && x.id != ruleId
  {
    if rules == [] then []
    else (if rules[0].id == ruleId then [] else [rules[0]]) + RulesWithout(rules[1..], ruleId)
  }

  function StepsOfOtherRules(steps: seq<Step>, ruleId: int): (r: seq<Step>)
    ensures forall x :: x in r <==> x in steps && x.ruleId != ruleId
  {
    if steps == [] then []
    else (if steps[0].ruleId == ruleId then [] else [steps[0]]) + StepsOfOtherRules(steps[1..], ruleId)
  }

  /**
   * Once a request's rows are stored in the approval table, both delete
   * actions refuse every step and every rule those rows were made from, for
   * as long as the rows stay in the table.
   */
  lemma StoredPlanPinsStepsAndRules(rules: seq<Rule>, ruleTable: seq<Rule>, steps: seq<Step>, start: int,
                                    all: seq<Approval>, i: nat)
    requires Plan(rules, steps, start).Some? && i < |Plan(rules, steps, start).value|
    requires forall r :: r in rules ==> r in ruleTable
    requires forall a :: a in Plan(rules, steps, start).value ==> a in all
    ensures var row := Plan(rules, steps, start).value[i];
            DeleteStep(steps, row.ruleStepId, all).0 == InUse &&
            DeleteRule(ruleTable, steps, row.ruleId, all).0 == InUse
  {
    var row := Plan(rules, steps, start).value[i];
    var r, st := PlanRowSource(rules, steps, start, i);
    assert row in all;
    var j :| 0 <= j < |all| && all[j] == row;
    var k :| 0 <= k < |steps| && steps[k] == st;
    var q :| 0 <= q < |ruleTable| && ruleTable[q] == r;
    assert steps[k].id == row.ruleStepId && all[j].ruleStepId == row.ruleStepId;
    assert ruleTable[q].id == row.ruleId && all[j].ruleId == row.ruleId;
  }
}
