/**
 * The admin dashboard helpers and the cluster master (app/admin/routes.py):
 * the pending-approval badge, the follow-up and closing-date KPIs, and the
 * cluster register with its name and head checks. The team walk the
 * dashboard scopes by is `Team.TeamUserIds`.
 */
module Admin {
  import opened Wrappers
  import opened Text
  import opened Numbers
  import opened Accounts
  import opened Approvals

  // ------------------------------------------------------------ pending approvals badge

  /**
   * A row the badge counts for the user: WAITING, and assigned to the user,
   * or to nobody in particular and to the user's role. The role test is SQL:
   * for a user without a role `approver_role == None` is `IS NULL`, so such a
   * user counts the rows naming neither user nor role; steps store a blank
   * role as NULL, written "" here, and a blank role name equals no row's role.
   */
  predicate AwaitsUser(a: Approval, userId: int, roleName: Option<string>)
  {
    a.status == Waiting &&
    (a.approverUserId == Some(userId) ||
     (a.approverUserId.None? &&
      (if roleName.None? then a.approverRole == "" else roleName.value != "" && a.approverRole == roleName.value)))
  }

  function RoleName(u: User): Option<string>
  {
    if u.role.Some? then Some(u.role.value.name) else None
  }

  /** The matching rows, in creation order. */
  function Awaiting(rows: seq<Approval>, userId: int, roleName: Option<string>): (r: seq<Approval>)
    ensures |r| <= |rows|
    ensures forall a :: a in r <==> a in rows && AwaitsUser(a, userId, roleName)
  {
    if rows == [] then []
    else
      var last := rows[|rows| - 1];
      assert rows == rows[..|rows| - 1] + [last];
      Awaiting(rows[..|rows| - 1], userId, roleName) + (if AwaitsUser(last, userId, roleName) then [last] else [])
  }

  /**
   * `pending_quote_approvals_for_user`: the number of matching rows and the
   * oldest eight of them; nothing for an anonymous request.
   */
  function PendingApprovalsFor(authenticated: bool, u: User, rows: seq<Approval>): (r: (nat, seq<Approval>))
    ensures !authenticated ==> r == (0, [])
    ensures authenticated ==> r.0 == |Awaiting(rows, u.id, RoleName(u))|
    ensures authenticated ==> r.1 == Take(Awaiting(rows, u.id, RoleName(u)), 8)
    ensures |r.1| <= 8 && |r.1| <= r.0
    ensures forall a :: a in r.1 ==> a in rows && AwaitsUser(a, u.id, RoleName(u))
  {
    if !authenticated then (0, [])
    else
      var m := Awaiting(rows, u.id, RoleName(u));
      var items := if |m| <= 8 then m else m[..8];
      assert forall a :: a in items ==> a in m;
      (|m|, items)
  }

  /**
   * The badge counts WAITING rows only: a PENDING row — the step the user can
   * act on now — is never counted, even when it names the user.
   */
  lemma ActionableRowsNotCounted(u: User, rows: seq<Approval>, a: Approval)
    requires a in rows && a.status == Pending && a.approverUserId == Some(u.id)
    ensures a !in Awaiting(rows, u.id, RoleName(u))
    ensures a !in PendingApprovalsFor(true, u, rows).1
  {
  }

  // ------------------------------------------------------------ follow-ups KPI

  /** One lead activity of the KPI query: the lead's owner and the next follow-up day, if any. */
  datatype FollowUp = FollowUp(activityId: int, leadOwnerId: Option<int>, nextFollowUpAt: Option<int>)

  datatype FollowUpItem = FollowUpItem(activity: FollowUp, isToday: bool, isOverdue: bool)

  /** The activity is in the query: its lead belongs to a listed owner and a follow-up is set. */
  predicate InFollowUps(f: FollowUp, ownerIds: set<int>)
  {
    f.leadOwnerId.Some? && f.leadOwnerId.value in ownerIds && f.nextFollowUpAt.Some?
  }

  /** The query's rows, in the order given (ascending follow-up time). */
  function FollowUps(acts: seq<FollowUp>, ownerIds: set<int>): (r: seq<FollowUp>)
    ensures forall f :: f in r <==> f in acts && InFollowUps(f, ownerIds)
  {
    if acts == [] then []
    else
      var last := acts[|acts| - 1];
      assert acts == acts[..|acts| - 1] + [last];
      FollowUps(acts[..|acts| - 1], ownerIds) + (if InFollowUps(last, ownerIds) then [last] else [])
  }

  function Take<T>(s: seq<T>, n: nat): (r: seq<T>)
    ensures |r| <= n && |r| <= |s| && r == s[..|r|]
    ensures |s| <= n ==> r == s
  {
    if |s| <= n then s else s[..n]
  }

  /** A follow-up is due today when its day is today, overdue when it is before; never both. */
  function ItemOf(f: FollowUp, today: int): (it: FollowUpItem)
    ensures !(it.isToday && it.isOverdue)
    ensures it.isToday <==> f.nextFollowUpAt == Some(today)
    ensures it.isOverdue <==> f.nextFollowUpAt.Some? && f.nextFollowUpAt.value < today
  {
    match f.nextFollowUpAt
    case None => FollowUpItem(f, false, false)
    case Some(d) => FollowUpItem(f, d == today, d < today)
  }

  function CountToday(items: seq<FollowUpItem>): (n: nat)
    ensures n <= |items|
  {
    if items == [] then 0 else CountToday(items[..|items| - 1]) + (if items[|items| - 1].isToday then 1 else 0)
  }

  function CountOverdue(items: seq<FollowUpItem>): (n: nat)
    ensures n <= |items|
  {
    if items == [] then 0 else CountOverdue(items[..|items| - 1]) + (if items[|items| - 1].isOverdue then 1 else 0)
  }

  /** One more listed item adds its own flags to the two counts. */
  lemma CountsStep(items: seq<FollowUpItem>, it: FollowUpItem)
    ensures CountToday(items + [it]) == CountToday(items) + (if it.isToday then 1 else 0)
    ensures CountOverdue(items + [it]) == CountOverdue(items) + (if it.isOverdue then 1 else 0)
  {
    assert (items + [it])[..|items|] == items;
  }

  /** Since no item is both, the two counts together never exceed the listed items. */
  lemma {:induction false} FlagsDisjoint(items: seq<FollowUpItem>)
    requires forall it :: it in items ==> !(it.isToday && it.isOverdue)
    ensures CountToday(items) + CountOverdue(items) <= |items|
  {
    if items != [] {
      var init := items[..|items| - 1];
      assert forall it :: it in init ==> it in items;
      assert items[|items| - 1] in items;
      FlagsDisjoint(init);
    }
  }

  /**
   * `kpi_followups`: `total` counts every follow-up of the owners, while
   * due_today and overdue are counted over the first `limit` listed items only.
   */
  method KpiFollowups(acts: seq<FollowUp>, ownerIds: set<int>, today: int, limit: nat)
    returns (total: nat, dueToday: nat, overdue: nat, items: seq<FollowUpItem>)
    ensures var listed := Take(FollowUps(acts, ownerIds), limit);
            |items| == |listed| && forall i :: 0 <= i < |items| ==> items[i] == ItemOf(listed[i], today)
    ensures total == |FollowUps(acts, ownerIds)|
    ensures dueToday == CountToday(items) && overdue == CountOverdue(items)
    ensures dueToday + overdue <= |items| <= limit
  {
    var rows := Take(FollowUps(acts, ownerIds), limit);
    items := [];
    dueToday, overdue := 0, 0;
    var i := 0;
    while i < |rows|
      invariant 0 <= i <= |rows| && |items| == i
      invariant forall k :: 0 <= k < i ==> items[k] == ItemOf(rows[k], today)
      invariant dueToday == CountToday(items) && overdue == CountOverdue(items)
    {
      var f := rows[i];
      var d := f.nextFollowUpAt;
      var isToday := if d.Some? then d.value == today else false;
      var isOverdue := if d.Some? then d.value < today else false;
      if isToday {
        dueToday := dueToday + 1;
      }
      if isOverdue {
        overdue := overdue + 1;
      }
      var it := FollowUpItem(f, isToday, isOverdue);
      assert it == ItemOf(f, today);
      CountsStep(items, it);
      items := items + [it];
      i := i + 1;
    }
    total := |FollowUps(acts, ownerIds)|;
    FlagsDisjoint(items);
  }

  // ------------------------------------------------------------ closing dates KPI

  /** An opportunity's owner and expected close day, either possibly NULL. */
  datatype OppDates = OppDates(id: int, ownerId: Option<int>, expectedCloseDate: Option<int>)

  predicate Owned(o: OppDates, ownerIds: set<int>)
  {
    o.ownerId.Some? && o.ownerId.value in ownerIds
  }

  /** Expected to close within the coming week: today through today + 7, both included. */
  predicate ClosingThisWeek(o: OppDates, today: int)
  {
    o.expectedCloseDate.Some? && today <= o.expectedCloseDate.value <= today + 7
  }

  /** Expected close day already passed. */
  predicate CloseOverdue(o: OppDates, today: int)
  {
    o.expectedCloseDate.Some? && o.expectedCloseDate.value < today
  }

  function CountClosing(opps: seq<OppDates>, ownerIds: set<int>, today: int): (n: nat)
    ensures n <= |opps|
  {
    if opps == [] then 0
    else
      CountClosing(opps[..|opps| - 1], ownerIds, today) +
      (if Owned(opps[|opps| - 1], ownerIds) && ClosingThisWeek(opps[|opps| - 1], today) then 1 else 0)
  }

  function CountCloseOverdue(opps: seq<OppDates>, ownerIds: set<int>, today: int): (n: nat)
    ensures n <= |opps|
  {
    if opps == [] then 0
    else
      CountCloseOverdue(opps[..|opps| - 1], ownerIds, today) +
      (if Owned(opps[|opps| - 1], ownerIds) && CloseOverdue(opps[|opps| - 1], today) then 1 else 0)
  }

  function CountDated(opps: seq<OppDates>, ownerIds: set<int>): (n: nat)
    ensures n <= |opps|
  {
    if opps == [] then 0
    else
      CountDated(opps[..|opps| - 1], ownerIds) +
      (if Owned(opps[|opps| - 1], ownerIds) && opps[|opps| - 1].expectedCloseDate.Some? then 1 else 0)
  }

  /** `kpi_opportunity_closures`: the two counts are of disjoint groups of dated opportunities. */
  lemma {:induction false} ClosuresDisjoint(opps: seq<OppDates>, ownerIds: set<int>, today: int)
    ensures CountClosing(opps, ownerIds, today) + CountCloseOverdue(opps, ownerIds, today) <= CountDated(opps, ownerIds)
  {
    if opps != [] {
      ClosuresDisjoint(opps[..|opps| - 1], ownerIds, today);
    }
  }

  /** The week window holds exactly eight calendar days. */
  lemma ClosingWindowIsEightDays(o: OppDates, today: int)
    requires o.expectedCloseDate.Some?
    ensures ClosingThisWeek(o, today) <==> o.expectedCloseDate.value - today in {0, 1, 2, 3, 4, 5, 6, 7}
  {
  }

  // ------------------------------------------------------------ cluster master

  datatype Cluster = Cluster(id: nat, name: string, headUserId: int, isActive: bool)

  /** Every cluster name differs from every other one, ignoring case. */
  predicate NamesDistinct(cs: seq<Cluster>)
  {
    forall i, j :: 0 <= i < j < |cs| ==> !SameIgnoringCase(cs[i].name, cs[j].name)
  }

  predicate ClusterIdsAscending(cs: seq<Cluster>)
  {
    (forall i :: 0 <= i < |cs| ==> cs[i].id >= 1) &&
    (forall i, j :: 0 <= i < j < |cs| ==> cs[i].id < cs[j].id)
  }

  /** The position of the cluster with that id. */
  function FindCluster(cs: seq<Cluster>, id: int): (k: Option<nat>)
    ensures k.Some? ==> k.value < |cs| && cs[k.value].id == id
    ensures k.None? ==> forall i :: 0 <= i < |cs| ==> cs[i].id != id
  {
    if cs == [] then None
    else if cs[|cs| - 1].id == id then Some(|cs| - 1)
    else
      var k := FindCluster(cs[..|cs| - 1], id);
      assert forall i :: 0 <= i < |cs| - 1 ==> cs[..|cs| - 1][i] == cs[i];
      k
  }

  /** Some cluster other than `exceptId` already has this name, ignoring case. */
  predicate NameTaken(cs: seq<Cluster>, name: string, exceptId: Option<int>)
  {
    exists i :: 0 <= i < |cs| && SameIgnoringCase(cs[i].name, name) && Some(cs[i].id) != exceptId
  }

  function FindUser(users: seq<User>, id: int): (u: Option<User>)
    ensures u.Some? ==> u.value in users && u.value.id == id
    ensures u.None? ==> forall x :: x in users ==> x.id != id
  {
    if users == [] then None
    else if users[|users| - 1].id == id then Some(users[|users| - 1])
    else
      var u := FindUser(users[..|users| - 1], id);
      assert users == users[..|users| - 1] + [users[|users| - 1]];
      u
  }

  datatype ClusterOutcome =
    | ClusterNameRequired
    | InvalidHead
    | HeadNotActive
    | DuplicateName
    | InvalidClusterId
    | ClusterNotFound
    | InvalidAction
    | ClusterCreated(id: nat)
    | ClusterUpdated
    | ClusterDisabled

  predicate Succeeded(o: ClusterOutcome)
  {
    o.ClusterCreated? || o.ClusterUpdated? || o.ClusterDisabled?
  }

  /** The form's head is a digit string naming an existing, active user. */
  predicate HeadOk(headRaw: string, users: seq<User>)
  {
    var t := Strip(headRaw);
    IsDigits(t) && FindUser(users, DigitsValue(t)).Some? && FindUser(users, DigitsValue(t)).value.isActive
  }

  /** The BD/AM advice: a head whose upper-cased team role is neither only gets a warning. */
  predicate HeadRoleWarned(teamRole: string)
  {
    Upper(teamRole) != "BD" && Upper(teamRole) != "AM"
  }

  /** The clusters table. */
  class ClusterBook {
    var clusters: seq<Cluster>

    predicate Valid()
      reads this
    {
      ClusterIdsAscending(clusters) && NamesDistinct(clusters)
    }

    constructor ()
      ensures clusters == [] && Valid()
    {
      clusters := [];
    }

    /**
     * The POST of `cluster_master`. Every action first needs a name and a
     * valid, active head — "delete" included. "create" refuses a name used
     * by any cluster (ignoring case); "update" one used by another cluster;
     * "delete" only clears is_active. `headTeamRole` is the head's
     * profile team_role ("" when missing) and only decides `warned`.
     */
    method Post(action: string, nameRaw: string, headRaw: string, isActiveRaw: Option<string>, idRaw: string,
                users: seq<User>, headTeamRole: string)
      returns (outcome: ClusterOutcome, warned: bool)
      requires Valid()
      modifies this`clusters
      ensures Valid()
      ensures IsBlank(nameRaw) ==> outcome == ClusterNameRequired
      ensures !IsBlank(nameRaw) && !IsDigits(Strip(headRaw)) ==> outcome == InvalidHead
      ensures !IsBlank(nameRaw) && IsDigits(Strip(headRaw)) && !HeadOk(headRaw, users) ==> outcome == HeadNotActive
      ensures Succeeded(outcome) ==> !IsBlank(nameRaw) && HeadOk(headRaw, users)
      ensures warned <==> !IsBlank(nameRaw) && HeadOk(headRaw, users) && HeadRoleWarned(headTeamRole)
      ensures !Succeeded(outcome) ==> clusters == old(clusters)
      ensures outcome.ClusterCreated? <==>
                Strip(action) == "create" && !IsBlank(nameRaw) && HeadOk(headRaw, users) &&
                !NameTaken(old(clusters), Strip(nameRaw), None)
      ensures outcome.ClusterCreated? ==>
                outcome.id == (if old(clusters) == [] then 1 else old(clusters)[|old(clusters)| - 1].id + 1) &&
                clusters == old(clusters) + [Cluster(outcome.id, Strip(nameRaw), DigitsValue(Strip(headRaw)), isActiveRaw == Some("1"))]
      ensures outcome.ClusterUpdated? <==>
                Strip(action) == "update" && !IsBlank(nameRaw) && HeadOk(headRaw, users) && IsDigits(Strip(idRaw)) &&
                FindCluster(old(clusters), DigitsValue(Strip(idRaw))).Some? &&
                !NameTaken(old(clusters), Strip(nameRaw), Some(DigitsValue(Strip(idRaw))))
      ensures outcome.ClusterUpdated? ==>
                var fk := FindCluster(old(clusters), DigitsValue(Strip(idRaw)));
                fk.Some? && clusters == old(clusters)[fk.value := Cluster(DigitsValue(Strip(idRaw)), Strip(nameRaw),
                                                              DigitsValue(Strip(headRaw)), isActiveRaw == Some("1"))]
      ensures outcome.ClusterDisabled? <==>
                Strip(action) == "delete" && !IsBlank(nameRaw) && HeadOk(headRaw, users) && IsDigits(Strip(idRaw)) &&
                FindCluster(old(clusters), DigitsValue(Strip(idRaw))).Some?
      ensures outcome.ClusterDisabled? ==>
                var fk := FindCluster(old(clusters), DigitsValue(Strip(idRaw)));
                fk.Some? && clusters == old(clusters)[fk.value := old(clusters)[fk.value].(isActive := false)]
    {
      warned := false;
      var act := Strip(action);
      var name := Strip(nameRaw);
      var head := Strip(headRaw);
      var isActive := isActiveRaw == Some("1");
      if name == [] {
        return ClusterNameRequired, false;
      }
      if !IsDigits(head) {
        return InvalidHead, false;
      }
      var headId := DigitsValue(head);
      var headUser := FindUser(users, headId);
      if headUser.None? || !headUser.value.isActive {
        return HeadNotActive, false;
      }
      warned := HeadRoleWarned(headTeamRole);
      if act == "create" {
        if NameTaken(clusters, name, None) {
          return DuplicateName, warned;
        }
        var id: nat := if clusters == [] then 1 else clusters[|clusters| - 1].id + 1;
        AppendClusterKeepsValid(clusters, Cluster(id, name, headId, isActive));
        clusters := clusters + [Cluster(id, name, headId, isActive)];
        return ClusterCreated(id), warned;
      } else if act == "update" || act == "delete" {
        var cid := Strip(idRaw);
        if !IsDigits(cid) {
          return InvalidClusterId, warned;
        }
        var k := FindCluster(clusters, DigitsValue(cid));
        if k.None? {
          return ClusterNotFound, warned;
        }
        if act == "update" {
          if NameTaken(clusters, name, Some(DigitsValue(cid))) {
            return DuplicateName, warned;
          }
          RenameKeepsValid(clusters, k.value, Cluster(DigitsValue(cid), name, headId, isActive));
          clusters := clusters[k.value := Cluster(DigitsValue(cid), name, headId, isActive)];
          return ClusterUpdated, warned;
        }
        DisableKeepsValid(clusters, k.value);
        clusters := clusters[k.value := clusters[k.value].(isActive := false)];
        return ClusterDisabled, warned;
      }
      return InvalidAction, warned;
    }
  }

  lemma AppendClusterKeepsValid(cs: seq<Cluster>, c: Cluster)
    requires ClusterIdsAscending(cs) && NamesDistinct(cs) && !NameTaken(cs, c.name, None)
    requires c.id == if cs == [] then 1 else cs[|cs| - 1].id + 1
    ensures ClusterIdsAscending(cs + [c]) && NamesDistinct(cs + [c])
  {
    var s := cs + [c];
    forall i | 0 <= i < |cs|
      ensures s[i].id < c.id && !SameIgnoringCase(s[i].name, c.name)
    {
      assert i == |cs| - 1 || cs[i].id < cs[|cs| - 1].id;
    }
  }

  /** Clearing one cluster's is_active keeps ids and names as they were. */
  lemma DisableKeepsValid(cs: seq<Cluster>, k: nat)
    requires ClusterIdsAscending(cs) && NamesDistinct(cs) && k < |cs|
    ensures var s := cs[k := cs[k].(isActive := false)];
            ClusterIdsAscending(s) && NamesDistinct(s)
  {
    var s := cs[k := cs[k].(isActive := false)];
    assert forall i :: 0 <= i < |s| ==> s[i].id == cs[i].id && s[i].name == cs[i].name;
  }

  lemma RenameKeepsValid(cs: seq<Cluster>, k: nat, c: Cluster)
    requires ClusterIdsAscending(cs) && NamesDistinct(cs) && k < |cs| && c.id == cs[k].id
    requires !NameTaken(cs, c.name, Some(c.id))
    ensures ClusterIdsAscending(cs[k := c]) && NamesDistinct(cs[k := c])
  {
    var s := cs[k := c];
    forall i, j | 0 <= i < j < |s|
      ensures !SameIgnoringCase(s[i].name, s[j].name)
    {
      if i == k {
        assert cs[j].id != c.id;
        SameIgnoringCaseIsEquivalence(c.name, cs[j].name, c.name);
      } else if j == k {
        assert cs[i].id != c.id;
      }
    }
  }
}
