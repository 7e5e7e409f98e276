/**
 * The reporting tree (EmployeeProfile.reporting_manager_user_id) and the
 * traversals that collect a manager's team: the queue walk of
 * `get_team_user_ids` (app/admin/routes.py), `_team_user_ids` (quotes, proforma,
 * invoices) and `_cluster_user_ids` (app/admin/reports.py), and the stack walk
 * of `_team_user_ids` in app/leads/routes.py.
 */
module Team {
  import opened Wrappers

  /** An EmployeeProfile row: a user and that user's reporting manager (None for NULL). */
  datatype Profile = Profile(userId: int, manager: Option<int>)

  /** The users whose profile names m as reporting manager, in row order. */
  function DirectReports(profiles: seq<Profile>, m: int): seq<int>
  {
    if profiles == [] then []
    else (if profiles[0].manager == Some(m) then [profiles[0].userId] else []) + DirectReports(profiles[1..], m)
  }

  /** A user is a direct report of m exactly when some profile row says so. */
  lemma {:induction false} DirectReportsSpec(profiles: seq<Profile>, m: int, u: int)
    ensures u in DirectReports(profiles, m) <==> exists i :: 0 <= i < |profiles| && profiles[i] == Profile(u, Some(m))
  {
    if profiles != [] {
      DirectReportsSpec(profiles[1..], m, u);
      if exists i :: 0 <= i < |profiles| && profiles[i] == Profile(u, Some(m)) {
        var i :| 0 <= i < |profiles| && profiles[i] == Profile(u, Some(m));
        if i > 0 {
          assert profiles[1..][i - 1] == profiles[i];
        }
      }
      if u in DirectReports(profiles[1..], m) {
        var i :| 0 <= i < |profiles[1..]| && profiles[1..][i] == Profile(u, Some(m));
        assert profiles[i + 1] == profiles[1..][i];
      }
    }
  }

  /** The number of profile rows whose user is not yet seen: the walks' termination measure. */
  function Unvisited(profiles: seq<Profile>, seen: set<int>): nat
  {
    if profiles == [] then 0
    else (if profiles[0].userId in seen then 0 else 1) + Unvisited(profiles[1..], seen)
  }

  lemma {:induction false} UnvisitedMono(profiles: seq<Profile>, seen0: set<int>, seen: set<int>)
    requires seen0 <= seen
    ensures Unvisited(profiles, seen) <= Unvisited(profiles, seen0)
  {
    if profiles != [] {
      UnvisitedMono(profiles[1..], seen0, seen);
    }
  }

  /** Seeing the user of one more profile row lowers the measure. */
  lemma {:induction false} UnvisitedShrinks(profiles: seq<Profile>, seen0: set<int>, seen: set<int>, i: int)
    requires seen0 <= seen && 0 <= i < |profiles|
    requires profiles[i].userId in seen && profiles[i].userId !in seen0
    ensures Unvisited(profiles, seen) < Unvisited(profiles, seen0)
  {
    if i == 0 {
      UnvisitedMono(profiles[1..], seen0, seen);
    } else {
      assert profiles[1..][i - 1] == profiles[i];
      UnvisitedShrinks(profiles[1..], seen0, seen, i - 1);
    }
  }

  /** A chain of reporting links going down: each user reports to the one before. */
  ghost predicate IsChain(profiles: seq<Profile>, p: seq<int>)
  {
    |p| >= 1 && forall i :: 0 <= i < |p| - 1 ==> p[i + 1] in DirectReports(profiles, p[i])
  }

  /** u is below m: reachable from m through at least one reporting link. */
  ghost predicate Below(profiles: seq<Profile>, m: int, u: int)
  {
    exists p :: IsChain(profiles, p) && |p| >= 2 && p[0] == m && p[|p| - 1] == u
  }

  /** team is exactly the users below m, plus m itself when includeSelf. */
  ghost predicate IsTeam(profiles: seq<Profile>, m: int, includeSelf: bool, team: set<int>)
  {
    forall u :: u in team <==> (includeSelf && u == m) || Below(profiles, m, u)
  }

  /** x is the manager or below the manager. */
  ghost predicate Reached(profiles: seq<Profile>, m: int, x: int)
  {
    x == m || Below(profiles, m, x)
  }

  /** Every seen user is below the manager (or is the manager, when included). */
  ghost predicate SeenBelow(profiles: seq<Profile>, m: int, includeSelf: bool, seen: set<int>)
  {
    forall u :: u in seen ==> Below(profiles, m, u) || (includeSelf && u == m)
  }

  ghost predicate QueuedReached(profiles: seq<Profile>, m: int, queue: seq<int>)
  {
    forall i :: 0 <= i < |queue| ==> Reached(profiles, m, queue[i])
  }

  /** One more reporting link below a reached user is below the manager. */
  lemma BelowStep(profiles: seq<Profile>, m: int, y: int, x: int)
    requires Reached(profiles, m, y) && x in DirectReports(profiles, y)
    ensures Below(profiles, m, x)
  {
    if y == m {
      assert IsChain(profiles, [m, x]);
    } else {
      var p :| IsChain(profiles, p) && |p| >= 2 && p[0] == m && p[|p| - 1] == y;
      ExtendChain(profiles, p, x);
      assert (p + [x])[|p + [x]| - 1] == x;
    }
  }

  /** The reports of every finished user are seen. */
  ghost predicate DoneClosed(profiles: seq<Profile>, done: set<int>, seen: set<int>)
  {
    forall x, c :: x in done && c in DirectReports(profiles, x) ==> c in seen
  }

  /** Every seen user is finished, still queued, or the one being visited. */
  ghost predicate Accounted(seen: set<int>, done: set<int>, queue: seq<int>, visiting: set<int>)
  {
    forall u :: u in seen ==> u in done || u in queue || u in visiting
  }

  /** A set that holds m's reports and is closed under reporting holds everything below m. */
  lemma {:induction false} ClosedHoldsBelow(profiles: seq<Profile>, m: int, s: set<int>, u: int)
    requires forall x :: x in DirectReports(profiles, m) ==> x in s
    requires forall y, x :: y in s && x in DirectReports(profiles, y) ==> x in s
    requires Below(profiles, m, u)
    ensures u in s
  {
    var p :| IsChain(profiles, p) && |p| >= 2 && p[0] == m && p[|p| - 1] == u;
    var i := 1;
    ChainLink(profiles, p, 0);
    InReports(profiles, m, s, p[1]);
    while i < |p| - 1
      invariant 1 <= i <= |p| - 1
      invariant p[i] in s
    {
      ChainLink(profiles, p, i);
      InClosed(profiles, s, p[i], p[i + 1]);
      i := i + 1;
    }
  }

  lemma InReports(profiles: seq<Profile>, m: int, s: set<int>, x: int)
    requires forall x :: x in DirectReports(profiles, m) ==> x in s
    requires x in DirectReports(profiles, m)
    ensures x in s
  {
  }

  lemma InClosed(profiles: seq<Profile>, s: set<int>, y: int, x: int)
    requires forall y, x :: y in s && x in DirectReports(profiles, y) ==> x in s
    requires y in s && x in DirectReports(profiles, y)
    ensures x in s
  {
  }

  lemma ChainLink(profiles: seq<Profile>, p: seq<int>, i: int)
    requires IsChain(profiles, p) && 0 <= i < |p| - 1
    ensures p[i + 1] in DirectReports(profiles, p[i])
  {
  }

  lemma ExtendChain(profiles: seq<Profile>, p: seq<int>, x: int)
    requires IsChain(profiles, p) && x in DirectReports(profiles, p[|p| - 1])
    ensures IsChain(profiles, p + [x]) && (p + [x])[0] == p[0] && |p + [x]| >= 2
  {
  }

  /**
   * The inner `for (uid,) in rows` loop of the queue walk: each row not yet
   * seen is marked seen and appended to the queue.
   */
  method EnqueueUnseen(rows: seq<int>, seen: set<int>, queue: seq<int>) returns (seen2: set<int>, queue2: seq<int>)
    ensures seen2 == seen + (set x | x in rows)
    ensures |queue| <= |queue2| && queue2[..|queue|] == queue
    ensures forall i :: |queue| <= i < |queue2| ==> queue2[i] in rows && queue2[i] !in seen
    ensures forall x :: x in seen2 && x !in seen ==> x in queue2[|queue|..]
  {
    seen2, queue2 := seen, queue;
    var j := 0;
    while j < |rows|
      invariant 0 <= j <= |rows|
      invariant seen2 == seen + (set x | x in rows[..j])
      invariant |queue| <= |queue2| && queue2[..|queue|] == queue
      invariant forall i :: |queue| <= i < |queue2| ==> queue2[i] in rows && queue2[i] !in seen
      invariant forall x :: x in seen2 && x !in seen ==> x in queue2[|queue|..]
    {
      var uid := rows[j];
      ghost var old_tail := queue2[|queue|..];
      assert rows[..j + 1] == rows[..j] + [uid];
      if uid !in seen2 {
        seen2 := seen2 + {uid};
        queue2 := queue2 + [uid];
        assert queue2[|queue|..] == old_tail + [uid];
      }
      j := j + 1;
    }
    assert rows[..j] == rows;
  }

  /**
   * `get_team_user_ids(manager, include_self)`: a breadth-first walk down the
   * reporting links from the manager with a seen-set, so cycles terminate.
   * The result is a set: the source returns `list(seen)`, without duplicates.
   */
  method TeamUserIds(profiles: seq<Profile>, manager: int, includeSelf: bool) returns (team: set<int>)
    ensures IsTeam(profiles, manager, includeSelf, team)
  {
    var seen: set<int> := if includeSelf then {manager} else {};
    var queue: seq<int> := [manager];
    ghost var done: set<int> := {};
    while queue != []
      invariant QueuedReached(profiles, manager, queue)
      invariant SeenBelow(profiles, manager, includeSelf, seen)
      invariant includeSelf ==> manager in seen
      invariant DoneClosed(profiles, done, seen)
      invariant Accounted(seen, done, queue, {}) && (manager in done || manager in queue)
      decreases Unvisited(profiles, seen), |queue|
    {
      var mid := queue[0];
      ghost var before := queue;
      queue := queue[1..];
      var rows := DirectReports(profiles, mid);
      ghost var seen0, queue0 := seen, queue;
      seen, queue := EnqueueUnseen(rows, seen, queue);
      VisitStep(profiles, manager, includeSelf, mid, rows, before, seen0, queue0, seen, queue, done);
      done := done + {mid};
    }
    team := seen;
    forall u | Below(profiles, manager, u) ensures u in team {
      ClosedHoldsBelow(profiles, manager, team, u);
    }
  }

  /** What one visit of `mid` preserves, for both walks (the queue and the stack). */
  lemma {:induction false} VisitStep(profiles: seq<Profile>, m: int, includeSelf: bool,
                                     mid: int, rows: seq<int>, before: seq<int>,
                                     seen0: set<int>, rest: seq<int>, seen: set<int>, queue: seq<int>, done: set<int>)
    requires rows == DirectReports(profiles, mid)
    requires |before| >= 1 && mid in before && forall x :: x in before ==> x == mid || x in rest
    requires forall x :: x in rest ==> x in before
    requires |rest| < |before|
    requires QueuedReached(profiles, m, before) && SeenBelow(profiles, m, includeSelf, seen0)
    requires DoneClosed(profiles, done, seen0)
    requires Accounted(seen0, done, before, {}) && (m in done || m in before)
    requires seen == seen0 + (set x | x in rows)
    requires |rest| <= |queue| && queue[..|rest|] == rest
    requires forall i :: |rest| <= i < |queue| ==> queue[i] in rows && queue[i] !in seen0
    requires forall x :: x in seen && x !in seen0 ==> x in queue[|rest|..]
    ensures QueuedReached(profiles, m, queue) && SeenBelow(profiles, m, includeSelf, seen)
    ensures DoneClosed(profiles, done + {mid}, seen)
    ensures Accounted(seen, done + {mid}, queue, {}) && (m in done + {mid} || m in queue)
    ensures Unvisited(profiles, seen) < Unvisited(profiles, seen0) || (seen == seen0 && |queue| < |before|)
  {
    assert Reached(profiles, m, mid);
    forall i | 0 <= i < |queue| ensures Reached(profiles, m, queue[i]) {
      if i < |rest| {
        assert queue[i] == queue[..|rest|][i];
        assert queue[i] in before;
      } else {
        BelowStep(profiles, m, mid, queue[i]);
      }
    }
    forall u | u in seen ensures Below(profiles, m, u) || (includeSelf && u == m) {
      if u !in seen0 {
        BelowStep(profiles, m, mid, u);
      }
    }
    forall u | u in seen ensures u in done + {mid} || u in queue {
      if u in seen0 {
        if u != mid && u !in done {
          assert u in rest;
          var k :| 0 <= k < |rest| && rest[k] == u;
          assert queue[..|rest|][k] == u;
        }
      } else {
        var k :| 0 <= k < |queue[|rest|..]| && queue[|rest|..][k] == u;
        assert queue[|rest| + k] == u;
      }
    }
    if m !in done && m != mid {
      var k :| 0 <= k < |rest| && rest[k] == m;
      assert queue[..|rest|][k] == m;
    }
    if |queue| > |rest| {
      var x := queue[|rest|];
      DirectReportsSpec(profiles, mid, x);
      var i :| 0 <= i < |profiles| && profiles[i] == Profile(x, Some(mid));
      UnvisitedShrinks(profiles, seen0, seen, i);
    } else {
      assert forall x :: x in seen ==> x in seen0;
    }
  }

  /**
   * `_team_user_ids` of app/leads/routes.py: the same walk with a stack and an
   * initially empty seen-set; the children not yet seen are collected first,
   * then each is marked seen and pushed.
   */
  method LeadTeamUserIds(profiles: seq<Profile>, manager: int) returns (team: set<int>)
    ensures IsTeam(profiles, manager, false, team)
  {
    var seen: set<int> := {};
    var stack: seq<int> := [manager];
    ghost var done: set<int> := {};
    while stack != []
      invariant QueuedReached(profiles, manager, stack)
      invariant SeenBelow(profiles, manager, false, seen)
      invariant DoneClosed(profiles, done, seen)
      invariant Accounted(seen, done, stack, {}) && (manager in done || manager in stack)
      decreases Unvisited(profiles, seen), |stack|
    {
      var mid := stack[|stack| - 1];
      ghost var before := stack;
      stack := stack[..|stack| - 1];
      var rows := DirectReports(profiles, mid);
      var childIds := Unseen(rows, seen);
      ghost var seen0, stack0 := seen, stack;
      seen, stack := PushAll(childIds, seen, stack);
      assert seen == seen0 + (set x | x in rows) by {
        assert forall x :: x in rows ==> x in seen0 || x in childIds;
      }
      forall i | |stack0| <= i < |stack| ensures stack[i] in rows && stack[i] !in seen0 {
        assert stack[i] == childIds[i - |stack0|];
      }
      forall x | x in seen && x !in seen0 ensures x in stack[|stack0|..] {
        assert stack[|stack0|..] == childIds;
      }
      VisitStep(profiles, manager, false, mid, rows, before, seen0, stack0, seen, stack, done);
      done := done + {mid};
    }
    team := seen;
    forall u | Below(profiles, manager, u) ensures u in team {
      ClosedHoldsBelow(profiles, manager, team, u);
    }
  }

  /** The inner `for cid in child_ids` loop of the stack walk: mark each child seen and push it. */
  method PushAll(childIds: seq<int>, seen: set<int>, stack: seq<int>) returns (seen2: set<int>, stack2: seq<int>)
    ensures seen2 == seen + (set x | x in childIds) && stack2 == stack + childIds
  {
    seen2, stack2 := seen, stack;
    var j := 0;
    while j < |childIds|
      invariant 0 <= j <= |childIds|
      invariant seen2 == seen + (set x | x in childIds[..j]) && stack2 == stack + childIds[..j]
    {
      assert childIds[..j + 1] == childIds[..j] + [childIds[j]];
      seen2 := seen2 + {childIds[j]};
      stack2 := stack2 + [childIds[j]];
      j := j + 1;
    }
    assert childIds[..j] == childIds;
  }

  /** The ids of `rows` not yet in seen, in order (the list comprehension of the leads walk). */
  function Unseen(rows: seq<int>, seen: set<int>): (r: seq<int>)
    ensures forall x :: x in r <==> x in rows && x !in seen
  {
    if rows == [] then []
    else (if rows[0] !in seen then [rows[0]] else []) + Unseen(rows[1..], seen)
  }

  /** The manager is in a team without self only when a reporting cycle leads back to them. */
  lemma ManagerInOwnTeamOnlyOnCycle(profiles: seq<Profile>, m: int, team: set<int>)
    requires IsTeam(profiles, m, false, team)
    ensures m in team <==> Below(profiles, m, m)
  {
  }

  /** Every direct report of the manager is in the team. */
  lemma {:induction false} DirectReportsInTeam(profiles: seq<Profile>, m: int, includeSelf: bool, team: set<int>, u: int)
    requires IsTeam(profiles, m, includeSelf, team) && u in DirectReports(profiles, m)
    ensures u in team
  {
    assert IsChain(profiles, [m, u]);
  }

  /** A team is closed under reporting: whoever reports to a team member below the manager is in it too. */
  lemma {:induction false} TeamClosed(profiles: seq<Profile>, m: int, includeSelf: bool, team: set<int>, y: int, x: int)
    requires IsTeam(profiles, m, includeSelf, team) && y in team && x in DirectReports(profiles, y)
    ensures x in team
  {
    if y == m {
      DirectReportsInTeam(profiles, m, includeSelf, team, x);
    } else {
      var p :| IsChain(profiles, p) && |p| >= 2 && p[0] == m && p[|p| - 1] == y;
      ExtendChain(profiles, p, x);
      assert (p + [x])[|p + [x]| - 1] == x;
    }
  }
}
