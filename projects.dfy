/**
 * Projects (app/projects/routes.py, app/services/margin.py, app/models.py
 * Project/ProjectCost/MarginSettings): a project is opened once from a
 * Selected or Sent quote with the quote's amount as its contract value;
 * costs booked against it move total_cost, and every change recomputes the
 * margin and the below-threshold flag.
 */
module Projects {
  import opened Wrappers
  import opened Text
  import opened Numbers
  import opened Accounts
  import opened Quotes
  import opened Calendar

  /** One row of margin_settings; rows arrive in id order. */
  datatype MarginSetting = MarginSetting(id: int, thresholdPercent: real, isActive: bool)

  const DEFAULT_THRESHOLD: real := 50.0

  /** `get_margin_threshold_percent`: the threshold of the newest active settings row, else 50. */
  function Threshold(settings: seq<MarginSetting>): real
  {
    if settings == [] then DEFAULT_THRESHOLD
    else if settings[|settings| - 1].isActive then settings[|settings| - 1].thresholdPercent
    else Threshold(settings[..|settings| - 1])
  }

  /** The threshold in force is the default when no row is active, else that of the newest active row. */
  lemma {:induction false} ThresholdIsNewestActive(settings: seq<MarginSetting>)
    ensures (forall i :: 0 <= i < |settings| ==> !settings[i].isActive) ==> Threshold(settings) == DEFAULT_THRESHOLD
    ensures (exists i :: 0 <= i < |settings| && settings[i].isActive) ==>
              exists i :: 0 <= i < |settings| && settings[i].isActive &&
                Threshold(settings) == settings[i].thresholdPercent &&
                forall j :: i < j < |settings| ==> !settings[j].isActive
  {
    if settings != [] && !settings[|settings| - 1].isActive {
      var init := settings[..|settings| - 1];
      assert forall i :: 0 <= i < |init| ==> init[i] == settings[i];
      ThresholdIsNewestActive(init);
      if exists i :: 0 <= i < |settings| && settings[i].isActive {
        var k :| 0 <= k < |settings| && settings[k].isActive;
        assert k < |init|;
      }
    }
  }

  /** margin_percent: the margin as a percentage of the contract, 0 for a contract that is not positive. */
  function MarginPercent(contract: real, cost: real): (p: real)
    ensures contract > 0.0 ==> p * contract == (contract - cost) * 100.0
    ensures contract <= 0.0 ==> p == 0.0
  {
    if contract > 0.0 then (contract - cost) * 100.0 / contract else 0.0
  }

  /** margin_flag: the margin percentage is strictly below the threshold. */
  predicate Flagged(contract: real, cost: real, threshold: real)
  {
    MarginPercent(contract, cost) < threshold
  }

  /** On a positive contract the flag is raised exactly when cost exceeds the contract's (100 − threshold)% share. */
  lemma FlagMeansCostAboveShare(contract: real, cost: real, threshold: real)
    requires contract > 0.0
    ensures Flagged(contract, cost, threshold) <==> cost > contract * (100.0 - threshold) / 100.0
  {
    var p := MarginPercent(contract, cost);
    assert p * contract == (contract - cost) * 100.0;
    if p < threshold {
      assert p * contract < threshold * contract;
    } else {
      assert p * contract >= threshold * contract;
    }
  }

  /** More cost never raises the margin percentage. */
  lemma MarginFallsAsCostRises(contract: real, cost1: real, cost2: real)
    requires cost1 <= cost2
    ensures MarginPercent(contract, cost2) <= MarginPercent(contract, cost1)
  {
    if contract > 0.0 {
      var p1, p2 := MarginPercent(contract, cost1), MarginPercent(contract, cost2);
      assert p2 * contract <= p1 * contract;
    }
  }

  /** `q.total_amount or q.total or 0`: the first of the two that is non-zero. */
  function ContractValue(totalAmount: real, total: real): (v: real)
    ensures v != 0.0 <==> totalAmount != 0.0 || total != 0.0
    ensures totalAmount != 0.0 ==> v == totalAmount
    ensures totalAmount == 0.0 ==> v == total
  {
    if totalAmount != 0.0 then totalAmount else if total != 0.0 then total else 0.0
  }

  datatype ProjectCost = ProjectCost(
    id: nat, costDate: int, costHead: string, vendorName: Option<string>,
    amount: real, notes: Option<string>, createdBy: int)

  /** The database's `sum(amount)` over a project's cost rows (0 when there are none). */
  function SumCosts(costs: seq<ProjectCost>): real
  {
    if costs == [] then 0.0 else SumCosts(costs[..|costs| - 1]) + costs[|costs| - 1].amount
  }

  /** The cost rows left after deleting the one with this id. */
  function RemoveCost(costs: seq<ProjectCost>, id: int): (r: seq<ProjectCost>)
    ensures |r| <= |costs|
    ensures forall c :: c in r <==> c in costs && c.id != id
  {
    if costs == [] then []
    else
      var last := costs[|costs| - 1];
      assert costs == costs[..|costs| - 1] + [last];
      RemoveCost(costs[..|costs| - 1], id) + (if last.id == id then [] else [last])
  }

  predicate HasCost(costs: seq<ProjectCost>, id: int)
  {
    exists i :: 0 <= i < |costs| && costs[i].id == id
  }

  /** Deleting a cost id that no row has leaves the rows as they were. */
  lemma {:induction false} RemoveAbsentCost(costs: seq<ProjectCost>, id: int)
    requires forall i :: 0 <= i < |costs| ==> costs[i].id != id
    ensures RemoveCost(costs, id) == costs
  {
    if costs != [] {
      var init := costs[..|costs| - 1];
      RemoveAbsentCost(init, id);
      assert costs == init + [costs[|costs| - 1]];
    }
  }

  /** Deleting the cost just added brings total_cost back to what it was before the add. */
  lemma AddThenDeleteRestores(costs: seq<ProjectCost>, c: ProjectCost)
    requires !HasCost(costs, c.id)
    ensures SumCosts(RemoveCost(costs + [c], c.id)) == SumCosts(costs)
  {
    var s := costs + [c];
    assert s[..|s| - 1] == costs;
    RemoveAbsentCost(costs, c.id);
    assert RemoveCost(s, c.id) == RemoveCost(costs, c.id);
  }

  /** Why a cost was not added, or the row that was. */
  datatype CostOutcome = CostAdded(cost: ProjectCost) | CostForbidden | CostInvalid

  /** The submitted amount: stripped, blank as "0", and `Decimal` failures as 0. */
  function CostAmount(raw: string): (a: real)
    ensures IsBlank(raw) ==> a == 0.0
  {
    var t := Strip(raw);
    if t == [] then 0.0
    else match ParseDecimal(t)
      case None => 0.0
      case Some(x) => x
  }

  /** A stripped optional text field: blank is stored as NULL. */
  function OptionalText(raw: string): (r: Option<string>)
    ensures r.None? <==> IsBlank(raw)
    ensures r.Some? ==> r.value == Strip(raw)
  {
    if Strip(raw) == [] then None else Some(Strip(raw))
  }

  class Project {
    const id: nat
    const quoteId: int
    var projectCode: string
    var name: string
    var clientId: Option<int>
    var currency: string
    var contractValue: real
    var totalCost: real
    var marginAmount: real
    var marginPercent: real
    var marginFlag: bool
    var costs: seq<ProjectCost>
    var createdAt: int  // the moment the project was created (Calendar seconds)
    var accountManagerId: Option<int>  // account_manager_user_id; no handler here sets it

    /** The margin fields agree with contract value, total cost and the threshold. */
    predicate MarginsFor(threshold: real)
      reads this
    {
      marginAmount == contractValue - totalCost &&
      marginPercent == MarginPercent(contractValue, totalCost) &&
      marginFlag == Flagged(contractValue, totalCost, threshold)
    }

    /** total_cost is the sum of the project's cost rows. */
    predicate Valid()
      reads this
    {
      totalCost == SumCosts(costs)
    }

    /** A new project row: no costs yet, margins computed at once. */
    constructor (id: nat, quoteId: int, projectCode: string, name: string, clientId: Option<int>,
                 currency: string, contractValue: real, threshold: real, createdAt: int)
      ensures this.createdAt == createdAt
      ensures this.id == id && this.quoteId == quoteId && this.projectCode == projectCode && this.name == name
      ensures this.clientId == clientId && this.currency == currency && this.contractValue == contractValue
      ensures totalCost == 0.0 && costs == [] && accountManagerId.None? && Valid() && MarginsFor(threshold)
    {
      this.id := id;
      this.quoteId := quoteId;
      this.projectCode := projectCode;
      this.name := name;
      this.clientId := clientId;
      this.currency := currency;
      this.contractValue := contractValue;
      this.createdAt := createdAt;
      accountManagerId := None;
      totalCost := 0.0;
      costs := [];
      marginAmount := contractValue;
      marginPercent := MarginPercent(contractValue, 0.0);
      marginFlag := MarginPercent(contractValue, 0.0) < threshold;
    }

    /** `recompute_project_margin`: writes the three margin fields and nothing else. */
    method RecomputeMargin(threshold: real)
      modifies this`marginAmount, this`marginPercent, this`marginFlag
      ensures MarginsFor(threshold)
    {
      var contract := contractValue;
      var cost := totalCost;
      var amt := contract - cost;
      var pct := 0.0;
      if contract > 0.0 {
        pct := (amt * 100.0) / contract;
      }
      marginAmount := amt;
      marginPercent := pct;
      marginFlag := pct < threshold;
    }

    /**
     * The POST of `view_project`: 403 without projects.cost.add; a blank cost
     * head or an amount that is not positive adds nothing; otherwise the row
     * is stored (blank vendor and notes as NULL, a missing date as today),
     * total_cost grows by the amount and the margins are recomputed.
     * `newId` is the id the database gives the new row.
     */
    method AddCost(user: User, costHeadRaw: string, vendorRaw: string, notesRaw: string, amountRaw: string,
                   costDate: Option<int>, today: int, newId: nat, settings: seq<MarginSetting>)
      returns (outcome: CostOutcome)
      requires !HasCost(costs, newId)
      modifies this`costs, this`totalCost, this`marginAmount, this`marginPercent, this`marginFlag
      ensures !HasPerm(user, "projects.cost.add") ==> outcome == CostForbidden
      ensures outcome.CostAdded? <==>
                HasPerm(user, "projects.cost.add") && !IsBlank(costHeadRaw) && CostAmount(amountRaw) > 0.0
      ensures !outcome.CostAdded? ==> unchanged(this)
      ensures outcome.CostAdded? ==>
                outcome.cost == ProjectCost(newId, OrElse(costDate, today), Strip(costHeadRaw),
                                            OptionalText(vendorRaw), CostAmount(amountRaw),
                                            OptionalText(notesRaw), user.id) &&
                costs == old(costs) + [outcome.cost] &&
                totalCost == old(totalCost) + outcome.cost.amount &&
                MarginsFor(Threshold(settings))
      ensures old(Valid()) ==> Valid()
    {
      if !HasPerm(user, "projects.cost.add") {
        return CostForbidden;
      }
      var costHead := Strip(costHeadRaw);
      var amount := CostAmount(amountRaw);
      if costHead == [] || amount <= 0.0 {
        return CostInvalid;
      }
      var c := ProjectCost(newId, OrElse(costDate, today), costHead, OptionalText(vendorRaw), amount,
                           OptionalText(notesRaw), user.id);
      costs := costs + [c];
      assert (costs)[..|costs| - 1] == old(costs);
      totalCost := totalCost + amount;
      RecomputeMargin(Threshold(settings));
      outcome := CostAdded(c);
    }

    /**
     * `delete_cost` on a cost of this project: the row goes, total_cost is
     * re-read as the sum of the rows left, and the margins are recomputed.
     * An id that no row of the project has is a 404 and changes nothing.
     */
    method DeleteCost(costId: int, settings: seq<MarginSetting>) returns (found: bool)
      modifies this`costs, this`totalCost, this`marginAmount, this`marginPercent, this`marginFlag
      ensures found <==> HasCost(old(costs), costId)
      ensures !found ==> unchanged(this)
      ensures found ==>
                costs == RemoveCost(old(costs), costId) && Valid() && MarginsFor(Threshold(settings))
    {
      found := HasCost(costs, costId);
      if !found {
        return;
      }
      costs := RemoveCost(costs, costId);
      totalCost := SumCosts(costs);
      RecomputeMargin(Threshold(settings));
    }
  }

  /** The projects table; `id` and `quoteId` never change once a project exists. */
  class ProjectBook {
    var projects: seq<Project>

    predicate Valid()
      reads this
    {
      ProjectsValid(projects)
    }

    constructor ()
      ensures projects == [] && Valid()
    {
      projects := [];
    }
  }

  /** The projects-table invariant on a sequence: ids ascending from 1, one project per quote. */
  predicate ProjectsValid(projects: seq<Project>)
  {
    (forall i :: 0 <= i < |projects| ==> projects[i].id >= 1) &&
    (forall i, j :: 0 <= i < j < |projects| ==> projects[i].id < projects[j].id) &&
    (forall i, j :: 0 <= i < j < |projects| ==> projects[i].quoteId != projects[j].quoteId)
  }

  /** A project with the next id for a quote that has none keeps the table valid. */
  lemma AppendProjectKeepsValid(projects: seq<Project>, p: Project)
    requires ProjectsValid(projects) && !HasProjectFor(projects, p.quoteId)
    requires p.id == if projects == [] then 1 else projects[|projects| - 1].id + 1
    ensures ProjectsValid(projects + [p])
  {
    var s := projects + [p];
    forall i | 0 <= i < |projects|
      ensures s[i].id < p.id && s[i].quoteId != p.quoteId
    {
      assert i == |projects| - 1 || projects[i].id < projects[|projects| - 1].id;
    }
  }

  function LastProjectId(projects: seq<Project>): Option<nat>
  {
    if projects == [] then None else Some(projects[|projects| - 1].id)
  }

  /** `_project_code_next`: "PRJ-" and the zero-padded id after the last one. */
  function ProjectCodeNext(projects: seq<Project>): string
  {
    NextCode("PRJ-", LastProjectId(projects))
  }

  predicate HasProjectFor(projects: seq<Project>, quoteId: int)
  {
    exists i :: 0 <= i < |projects| && projects[i].quoteId == quoteId
  }

  datatype CreateOutcome = ProjectCreated(project: Project) | NotSelectedOrSent | ProjectExists

  /** The new project's name: "<opportunity title> (<quote code>)". */
  function ProjectName(title: string, quoteCode: string): string
  {
    title + " (" + quoteCode + ")"
  }

  /** `q.currency or "INR"`. */
  function ProjectCurrency(currency: string): (c: string)
    ensures c != []
  {
    if currency == [] then "INR" else currency
  }

  /**
   * `create_from_quote`: only a Selected or Sent quote, and only one project
   * per quote; the project copies the client and currency and takes the
   * quote's amount as contract value.
   */
  method CreateFromQuote(book: ProjectBook, q: Quote, quoteId: int, opportunityTitle: string,
                         settings: seq<MarginSetting>, now: int)
    returns (outcome: CreateOutcome)
    requires book.Valid()
    modifies book
    ensures book.Valid()
    ensures q.status != SELECTED && q.status != SENT ==> outcome == NotSelectedOrSent
    ensures outcome.ProjectCreated? <==>
              (q.status == SELECTED || q.status == SENT) && !HasProjectFor(old(book.projects), quoteId)
    ensures !outcome.ProjectCreated? ==> book.projects == old(book.projects)
    ensures outcome.ProjectCreated? ==>
              var p := outcome.project;
              fresh(p) && book.projects == old(book.projects) + [p] &&
              p.quoteId == quoteId && p.projectCode == ProjectCodeNext(old(book.projects)) &&
              p.name == ProjectName(opportunityTitle, q.code) && p.clientId == q.clientId &&
              p.currency == ProjectCurrency(q.ctx.currency) &&
              p.contractValue == ContractValue(q.totalAmount, q.total) && p.createdAt == now &&
              p.costs == [] && p.totalCost == 0.0 && p.accountManagerId.None? && p.Valid() && p.MarginsFor(Threshold(settings))
  {
    if q.status != SELECTED && q.status != SENT {
      return NotSelectedOrSent;
    }
    if HasProjectFor(book.projects, quoteId) {
      return ProjectExists;
    }
    var ps := book.projects;
    var id: nat := if ps == [] then 1 else ps[|ps| - 1].id + 1;
    var p := new Project(id, quoteId, ProjectCodeNext(ps), ProjectName(opportunityTitle, q.code), q.clientId,
                         ProjectCurrency(q.ctx.currency), ContractValue(q.totalAmount, q.total), Threshold(settings), now);
    AppendProjectKeepsValid(ps, p);
    book.projects := ps + [p];
    outcome := ProjectCreated(p);
  }
}
