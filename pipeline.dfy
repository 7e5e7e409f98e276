/**
 * The sales pipeline (app/pipeline/routes.py): opportunities sit in stages,
 * every stage change appends a history row, and the board groups
 * opportunities under the active stages. The history of each opportunity
 * always ends at the stage it is in.
 */
module Pipeline {
  import opened Wrappers
  import opened Text
  import opened Numbers
  import opened Calendar

  /** A `pipeline_stages` row. */
  datatype Stage = Stage(id: int, name: string, sortOrder: int, isActive: bool)

  /**
   * An `opportunities` row; dates are day numbers, `updatedAt` a clock
   * reading, `expectedValue` the `Numeric(12, 2)` value.
   */
  datatype Opportunity = Opportunity(
    id: nat, code: string, title: string, company: string,
    contactName: string, contactEmail: string, contactPhone: string,
    expectedValue: real, expectedClose: Option<int>, notes: string,
    leadId: Option<int>, ownerId: int, stageId: Option<int>, updatedAt: int)

  /** An `opportunity_stage_history` row. */
  datatype StageChange = StageChange(opportunityId: nat, fromStage: Option<int>, toStage: Option<int>,
                                     changedBy: int, remark: string)

  /** The create form; a missing field is "". */
  datatype OpportunityForm = OpportunityForm(
    title: string, company: string, contactName: string, contactEmail: string, contactPhone: string,
    expectedValue: string, expectedCloseDate: string, notes: string, leadId: string, stageId: string)

  // ---------------------------------------------------------------- stages

  /** An active stage that no active stage precedes in sort order. */
  predicate FirstInOrder(stages: seq<Stage>, s: Stage)
  {
    s in stages && s.isActive && forall t :: t in stages && t.isActive ==> s.sortOrder <= t.sortOrder
  }

  /** `stages[0]` of the active stages ordered by sort_order; the earliest listed wins a tie. */
  function FirstActiveStage(stages: seq<Stage>): (r: Option<Stage>)
    ensures r.Some? ==> FirstInOrder(stages, r.value)
    ensures r.None? <==> forall t :: t in stages ==> !t.isActive
  {
    if stages == [] then None
    else
      var rest := FirstActiveStage(stages[1..]);
      assert forall t :: t in stages[1..] ==> t in stages;
      assert forall t :: t in stages ==> t == stages[0] || t in stages[1..];
      if !stages[0].isActive then rest
      else if rest.Some? && rest.value.sortOrder < stages[0].sortOrder then rest
      else Some(stages[0])
  }

  function ActiveStageIds(stages: seq<Stage>): set<int>
  {
    set s | s in stages && s.isActive :: s.id
  }

  /** The ids the foreign key `stage_id -> pipeline_stages.id` accepts: every stage row, active or not. */
  function StageIds(stages: seq<Stage>): set<int>
  {
    set s | s in stages :: s.id
  }

  /** A nullable foreign key is satisfied by NULL or by an id present in the referenced table. */
  predicate Refers(ref: Option<int>, ids: set<int>)
  {
    ref.None? || ref.value in ids
  }

  // ---------------------------------------------------------------- opportunities

  /** Ids in table order, strictly increasing. */
  predicate IdsAscending(opps: seq<Opportunity>)
  {
    forall i, j :: 0 <= i < j < |opps| ==> opps[i].id < opps[j].id
  }

  function LastId(opps: seq<Opportunity>): Option<nat>
  {
    if opps == [] then None else Some(opps[|opps| - 1].id)
  }

  /** The id the next row receives: last id + 1, or 1. */
  function NextId(opps: seq<Opportunity>): (id: nat)
    ensures id >= 1
    ensures IdsAscending(opps) ==> forall i :: 0 <= i < |opps| ==> opps[i].id < id
  {
    if opps == [] then 1 else opps[|opps| - 1].id + 1
  }

  /** The code an opportunity with this id carries: "OP-" and six or more digits. */
  function OpportunityCode(id: nat): string
  {
    "OP-" + Pad6(id)
  }

  /** `_opp_code_next` names the row about to be inserted. */
  lemma NextCodeNamesNextRow(opps: seq<Opportunity>)
    ensures NextCode("OP-", LastId(opps)) == OpportunityCode(NextId(opps))
  {
  }

  /** Different ids give different codes. */
  lemma CodesDiffer(a: nat, b: nat)
    requires a != b
    ensures OpportunityCode(a) != OpportunityCode(b)
  {
    var ca, cb := OpportunityCode(a), OpportunityCode(b);
    assert ca[3..] == Pad6(a) && cb[3..] == Pad6(b);
    Pad6Value(a);
    Pad6Value(b);
  }

  function FindOpportunity(opps: seq<Opportunity>, id: int): (k: Option<nat>)
    ensures k.Some? ==> k.value < |opps| && opps[k.value].id == id
    ensures k.None? ==> forall i :: 0 <= i < |opps| ==> opps[i].id != id
  {
    if opps == [] then None
    else if opps[|opps| - 1].id == id then Some(|opps| - 1)
    else FindOpportunity(opps[..|opps| - 1], id)
  }

  // ---------------------------------------------------------------- history

  /** The latest history row of an opportunity. */
  function LastChange(history: seq<StageChange>, id: nat): (r: Option<StageChange>)
    ensures r.Some? ==> r.value in history && r.value.opportunityId == id
  {
    if history == [] then None
    else if history[|history| - 1].opportunityId == id then Some(history[|history| - 1])
    else LastChange(history[..|history| - 1], id)
  }

  /** Appending a row changes the latest row of its own opportunity only. */
  lemma LastChangeAppend(history: seq<StageChange>, c: StageChange, id: nat)
    ensures LastChange(history + [c], id) == if c.opportunityId == id then Some(c) else LastChange(history, id)
  {
    assert (history + [c])[..|history|] == history;
  }

  /** The history of `o` ends at the stage `o` is in. */
  predicate HistoryEndsAt(history: seq<StageChange>, o: Opportunity)
  {
    LastChange(history, o.id).Some? && LastChange(history, o.id).value.toStage == o.stageId
  }

  predicate PipelineValid(opps: seq<Opportunity>, history: seq<StageChange>)
  {
    IdsAscending(opps) &&
    (forall i :: 0 <= i < |opps| ==> opps[i].code == OpportunityCode(opps[i].id)) &&
    (forall i :: 0 <= i < |opps| ==> HistoryEndsAt(history, opps[i]))
  }

  /** Codes are unique in a valid pipeline. */
  lemma CodesUnique(opps: seq<Opportunity>, history: seq<StageChange>, i: nat, j: nat)
    requires PipelineValid(opps, history)
    requires i < j < |opps|
    ensures opps[i].code != opps[j].code
  {
    CodesDiffer(opps[i].id, opps[j].id);
  }

  // ---------------------------------------------------------------- create

  /** `InsertRefused`: the database refuses the insert, the request fails and nothing is saved. */
  datatype CreateOutcome = InvalidCloseDate | TitleRequired | InsertRefused | OpportunityCreated(opportunity: Opportunity)

  /** The largest magnitude `Numeric(12, 2)` holds: ten digits before the point. */
  const NUMERIC_LIMIT: real := 10000000000.0

  /**
   * `request.form.get("expected_value") or 0` as the `Numeric(12, 2)` column
   * takes it: a missing or empty field is 0; any other text must read as a
   * decimal of fewer than eleven whole digits, or the commit fails.
   */
  function ExpectedValue(raw: string): (r: Option<real>)
    ensures raw == "" ==> r == Some(0.0)
    ensures r.Some? ==> -NUMERIC_LIMIT < r.value < NUMERIC_LIMIT
  {
    if raw == "" then Some(0.0)
    else match ParseDecimal(Strip(raw))
      case None => None
      case Some(x) => if -NUMERIC_LIMIT < x < NUMERIC_LIMIT then Some(x) else None
  }

  /**
   * The column takes a whole number below the limit as its value, and refuses
   * text with a thousands comma ("1,000") or that starts with no digit, sign
   * or point ("abc").
   */
  lemma ExpectedValueReads(n: nat, raw: string)
    ensures n < 10000000000 ==> ExpectedValue(ShowNat(n)) == Some(n as real)
    ensures raw != "" && (',' in raw || StartsNonNumeric(Strip(raw))) ==> ExpectedValue(raw) == None
  {
    StripUnpadded(ShowNat(n));
    ParseDigits(ShowNat(n));
    ShowNatValue(n);
    if raw != "" && StartsNonNumeric(Strip(raw)) {
      NonNumericUnparsed(Strip(raw));
    } else if raw != "" && ',' in raw {
      StripKeeps(raw, ',');
      CommaUnparsed(Strip(raw));
    }
  }

  /** The expected close date: blank is none, anything else must parse. */
  function CloseDate(raw: string): Option<Option<int>>
  {
    var t := Strip(raw);
    if t == [] then Some(None)
    else match ParseIsoDate(t)
      case None => None
      case Some(d) => Some(Some(d))
  }

  /** The stage a new opportunity starts in: the submitted id, else the first active stage, else none. */
  function StartStage(stages: seq<Stage>, raw: string): (s: Option<int>)
    ensures IsDigits(raw) ==> s == Some(DigitsValue(raw) as int)
    ensures !IsDigits(raw) && FirstActiveStage(stages).Some? ==> s == Some(FirstActiveStage(stages).value.id)
    ensures s.None? <==> !IsDigits(raw) && forall t :: t in stages ==> !t.isActive
  {
    if IsDigits(raw) then Some(DigitsValue(raw) as int)
    else match FirstActiveStage(stages)
      case None => None
      case Some(first) => Some(first.id)
  }

  /** The row create inserts. */
  function NewOpportunity(f: OpportunityForm, id: nat, closeDate: Option<int>, value: real, stages: seq<Stage>,
                          me: int, now: int): (o: Opportunity)
    ensures o.id == id && o.code == OpportunityCode(id) && o.ownerId == me
    ensures o.stageId == StartStage(stages, f.stageId) && o.leadId == OptInt(DigitId(f.leadId))
  {
    Opportunity(id, OpportunityCode(id), Strip(f.title), Strip(f.company),
                Strip(f.contactName), Lower(Strip(f.contactEmail)), Strip(f.contactPhone),
                value, closeDate, Strip(f.notes),
                OptInt(DigitId(f.leadId)), me, StartStage(stages, f.stageId), now)
  }

  /**
   * The insert of create commits: the expected value fits the column, and the
   * start stage and the linked lead, when there are any, exist.
   */
  predicate CreateCommits(f: OpportunityForm, stages: seq<Stage>, leadIds: set<int>)
  {
    ExpectedValue(f.expectedValue).Some? &&
    Refers(StartStage(stages, f.stageId), StageIds(stages)) && Refers(OptInt(DigitId(f.leadId)), leadIds)
  }

  /**
   * Without a posted stage or lead, only the expected value can make the
   * insert fail: the fallback start stage is a row of the stage table.
   */
  lemma DefaultStageCommits(f: OpportunityForm, stages: seq<Stage>, leadIds: set<int>)
    requires !IsDigits(f.stageId) && !IsDigits(f.leadId)
    ensures CreateCommits(f, stages, leadIds) <==> ExpectedValue(f.expectedValue).Some?
  {
    var first := FirstActiveStage(stages);
    if first.Some? {
      assert first.value in stages;
    }
  }

  // ---------------------------------------------------------------- move

  /** `UnknownStage`: the target id is no stage row, so the foreign key refuses the update at commit. */
  datatype MoveOutcome = OpportunityNotFound | InvalidStage | SameStage | UnknownStage | Moved

  // ---------------------------------------------------------------- board

  /** The opportunities of one stage, in the order given. */
  function OnStage(opps: seq<Opportunity>, stageId: int): (r: seq<Opportunity>)
    ensures forall o :: o in r <==> o in opps && o.stageId == Some(stageId)
  {
    if opps == [] then []
    else
      var init := opps[..|opps| - 1];
      assert forall o :: o in opps <==> o in init || o == opps[|opps| - 1];
      OnStage(init, stageId) + (if opps[|opps| - 1].stageId == Some(stageId) then [opps[|opps| - 1]] else [])
  }

  /**
   * board: one list per active stage holding that stage's opportunities in
   * the order given (most recently updated first); opportunities in an
   * inactive or missing stage, or in none, are left off.
   */
  method Board(stages: seq<Stage>, opps: seq<Opportunity>) returns (grouped: map<int, seq<Opportunity>>)
    ensures grouped.Keys == ActiveStageIds(stages)
    ensures forall id :: id in grouped ==> grouped[id] == OnStage(opps, id)
  {
    grouped := map id | id in ActiveStageIds(stages) :: [];
    var i := 0;
    while i < |opps|
      invariant 0 <= i <= |opps|
      invariant grouped.Keys == ActiveStageIds(stages)
      invariant forall id :: id in grouped ==> grouped[id] == OnStage(opps[..i], id)
    {
      var o := opps[i];
      assert opps[..i + 1][..i] == opps[..i];
      if o.stageId.Some? && o.stageId.value in grouped {
        grouped := grouped[o.stageId.value := grouped[o.stageId.value] + [o]];
      }
      i := i + 1;
    }
    assert opps[..i] == opps;
  }

  /** An opportunity is on the board, under its own stage, exactly when that stage is active. */
  lemma {:induction false} BoardShowsActiveStagesOnly(stages: seq<Stage>, opps: seq<Opportunity>,
                                                      grouped: map<int, seq<Opportunity>>, o: Opportunity)
    requires grouped.Keys == ActiveStageIds(stages)
    requires forall id :: id in grouped ==> grouped[id] == OnStage(opps, id)
    requires o in opps
    ensures (exists id :: id in grouped && o in grouped[id]) <==> o.stageId.Some? && o.stageId.value in ActiveStageIds(stages)
    ensures forall id :: id in grouped && o in grouped[id] ==> o.stageId == Some(id)
  {
    if o.stageId.Some? && o.stageId.value in ActiveStageIds(stages) {
      assert o in grouped[o.stageId.value];
    }
  }

  // ---------------------------------------------------------------- the tables

  class PipelineBook {
    var opportunities: seq<Opportunity>
    var history: seq<StageChange>

    predicate Valid()
      reads this
    {
      PipelineValid(opportunities, history)
    }

    constructor ()
      ensures Valid() && opportunities == [] && history == []
    {
      opportunities := [];
      history := [];
    }

    /**
     * create (POST): an unparsable close date fails before anything else, a
     * blank title is refused; otherwise the row is inserted with the next
     * code, unless the database refuses it (an expected value the numeric
     * column cannot take, or a stage or lead id with no row behind it), and a
     * "Created" history row from no stage to its start stage follows.
     * `stages` is the whole stage table; `leadIds` the ids of the leads table.
     */
    method Create(f: OpportunityForm, stages: seq<Stage>, leadIds: set<int>, me: int, now: int)
      returns (outcome: CreateOutcome)
      requires Valid()
      modifies this
      ensures Valid()
      ensures outcome.InvalidCloseDate? <==> CloseDate(f.expectedCloseDate).None?
      ensures outcome.TitleRequired? <==> CloseDate(f.expectedCloseDate).Some? && IsBlank(f.title)
      ensures outcome.InsertRefused? <==>
                CloseDate(f.expectedCloseDate).Some? && !IsBlank(f.title) && !CreateCommits(f, stages, leadIds)
      ensures outcome.OpportunityCreated? ==>
                var o := outcome.opportunity;
                o == NewOpportunity(f, NextId(old(opportunities)), CloseDate(f.expectedCloseDate).value,
                                    ExpectedValue(f.expectedValue).value, stages, me, now) &&
                Refers(o.stageId, StageIds(stages)) && Refers(o.leadId, leadIds) &&
                opportunities == old(opportunities) + [o] &&
                history == old(history) + [StageChange(o.id, None, o.stageId, me, "Created")]
      ensures !outcome.OpportunityCreated? ==> opportunities == old(opportunities) && history == old(history)
    {
      var closeDate := CloseDate(f.expectedCloseDate);
      if closeDate.None? {
        return InvalidCloseDate;
      }
      if Strip(f.title) == [] {
        return TitleRequired;
      }
      if !CreateCommits(f, stages, leadIds) {
        return InsertRefused;
      }
      var id := NextId(opportunities);
      NextCodeNamesNextRow(opportunities);
      var o := NewOpportunity(f, id, closeDate.value, ExpectedValue(f.expectedValue).value, stages, me, now);
      var c := StageChange(o.id, None, o.stageId, me, "Created");
      AppendKeepsValid(opportunities, history, o, c);
      opportunities := opportunities + [o];
      history := history + [c];
      return OpportunityCreated(o);
    }

    /**
     * move: a non-numeric target changes nothing, the current stage is a
     * no-op without history, a target id with no stage row fails the commit;
     * otherwise the stage and update time change and exactly one history row
     * (old stage, new stage, actor) is appended. `stages` is the whole stage
     * table.
     */
    method Move(id: int, toRaw: string, remark: string, stages: seq<Stage>, me: int, now: int)
      returns (outcome: MoveOutcome)
      requires Valid()
      modifies this
      ensures Valid()
      ensures outcome == OpportunityNotFound <==> FindOpportunity(old(opportunities), id).None?
      ensures outcome == InvalidStage <==> FindOpportunity(old(opportunities), id).Some? && !IsDigits(toRaw)
      ensures outcome == SameStage <==>
                FindOpportunity(old(opportunities), id).Some? && IsDigits(toRaw) &&
                old(opportunities)[FindOpportunity(old(opportunities), id).value].stageId == Some(DigitsValue(toRaw) as int)
      ensures outcome == UnknownStage <==>
                FindOpportunity(old(opportunities), id).Some? && IsDigits(toRaw) &&
                old(opportunities)[FindOpportunity(old(opportunities), id).value].stageId != Some(DigitsValue(toRaw) as int) &&
                DigitsValue(toRaw) as int !in StageIds(stages)
      ensures outcome == Moved ==>
                var k := FindOpportunity(old(opportunities), id).value;
                var o := old(opportunities)[k];
                var to := DigitsValue(toRaw) as int;
                to in StageIds(stages) &&
                opportunities == old(opportunities)[k := o.(stageId := Some(to), updatedAt := now)] &&
                history == old(history) + [StageChange(o.id, o.stageId, Some(to), me, Strip(remark))]
      ensures outcome != Moved ==> opportunities == old(opportunities) && history == old(history)
    {
      var found := FindOpportunity(opportunities, id);
      if found.None? {
        return OpportunityNotFound;
      }
      if !IsDigits(toRaw) {
        return InvalidStage;
      }
      var to := DigitsValue(toRaw) as int;
      var k := found.value;
      var o := opportunities[k];
      if o.stageId == Some(to) {
        return SameStage;
      }
      if to !in StageIds(stages) {
        return UnknownStage;
      }
      var moved := o.(stageId := Some(to), updatedAt := now);
      var c := StageChange(o.id, o.stageId, Some(to), me, Strip(remark));
      ReplaceKeepsValid(opportunities, history, k, moved, c);
      opportunities := opportunities[k := moved];
      history := history + [c];
      return Moved;
    }
  }

  /** Inserting a row with the next id and its first history row keeps the pipeline valid. */
  lemma AppendKeepsValid(opps: seq<Opportunity>, history: seq<StageChange>, o: Opportunity, c: StageChange)
    requires PipelineValid(opps, history)
    requires o.id == NextId(opps) && o.code == OpportunityCode(o.id)
    requires c.opportunityId == o.id && c.toStage == o.stageId
    ensures PipelineValid(opps + [o], history + [c])
  {
    var os := opps + [o];
    forall i | 0 <= i < |os|
      ensures HistoryEndsAt(history + [c], os[i])
    {
      LastChangeAppend(history, c, os[i].id);
      if i < |opps| {
        assert os[i] == opps[i] && HistoryEndsAt(history, opps[i]);
      }
    }
  }

  /** Changing one row's stage with a matching history row keeps the pipeline valid. */
  lemma ReplaceKeepsValid(opps: seq<Opportunity>, history: seq<StageChange>, k: nat, o: Opportunity, c: StageChange)
    requires PipelineValid(opps, history) && k < |opps|
    requires o.id == opps[k].id && o.code == opps[k].code
    requires c.opportunityId == o.id && c.toStage == o.stageId
    ensures PipelineValid(opps[k := o], history + [c])
  {
    var os := opps[k := o];
    forall i | 0 <= i < |os|
      ensures HistoryEndsAt(history + [c], os[i])
    {
      LastChangeAppend(history, c, os[i].id);
      if i != k {
        assert os[i] == opps[i] && HistoryEndsAt(history, opps[i]);
        assert opps[i].id != opps[k].id;
      }
    }
  }

  /** A moved opportunity's latest history row records the move. */
  lemma MoveRecordsChange(history: seq<StageChange>, o: Opportunity, to: int, me: int, remark: string)
    ensures var c := StageChange(o.id, o.stageId, Some(to), me, remark);
            LastChange(history + [c], o.id) == Some(c) &&
            LastChange(history + [c], o.id).value.fromStage == o.stageId
  {
    LastChangeAppend(history, StageChange(o.id, o.stageId, Some(to), me, remark), o.id);
  }
}
