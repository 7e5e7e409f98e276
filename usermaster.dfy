/**
 * The user master screen (app/admin/user_master.py): an administrator edits a
 * user's row and employee profile, and resets the password of a LOCAL user.
 * Deactivating a user who still has approval work assigned is refused.
 */
module UserMaster {
  import opened Wrappers
  import opened Text
  import opened Numbers
  import opened Accounts
  import opened Approvals

  /**
   * The columns of a `users` row this screen writes. `Accounts.User` is the
   * same row seen through its role's permissions; "" stands for a NULL
   * password hash.
   */
  datatype UserRow = UserRow(
    id: int, name: string, email: string, provider: Provider, roleId: Option<int>,
    isActive: bool, companyBranchId: Option<int>, monthlyCtc: real, passwordHash: string)

  /** An `employee_profiles` row: at most one per user, and employee codes are unique. */
  datatype EmployeeProfile = EmployeeProfile(
    userId: int, employeeCode: Option<string>, designationId: Option<int>,
    department: Option<string>, managerId: Option<int>, teamRole: Option<string>)

  /** The submitted update form; a missing field is "". */
  datatype UserForm = UserForm(
    name: string, email: string, roleId: string, isActive: string, companyBranchId: string,
    monthlyCtc: string, employeeCode: string, designationId: string, department: string,
    managerId: string, teamRole: string)

  /** The row as `Accounts` sees it, for the password check. */
  function AsAccount(u: UserRow, role: Option<Role>): (a: User)
    ensures a.id == u.id && a.passwordHash == u.passwordHash && a.provider == u.provider
  {
    User(u.id, u.email, u.name, u.passwordHash, u.isActive, u.provider, role)
  }

  // ------------------------------------------------------------ form values

  /** `Decimal(_clean(v) or "0")`, with 0 where `Decimal` raises. */
  function Ctc(raw: string): (x: real)
    ensures IsBlank(raw) ==> x == 0.0
  {
    var t := Strip(raw);
    if t == [] then 0.0
    else match ParseDecimal(t)
      case None => 0.0
      case Some(v) => v
  }

  /**
   * Text whose first non-space character is neither a digit, a sign nor a
   * point is stored as 0; a whole number is stored as its value.
   */
  lemma CtcReadsNumbersElseZero(raw: string, n: nat)
    ensures StartsNonNumeric(Strip(raw)) ==> Ctc(raw) == 0.0
    ensures Ctc(ShowNat(n)) == n as real
  {
    if StartsNonNumeric(Strip(raw)) {
      NonNumericUnparsed(Strip(raw));
    }
    StripUnpadded(ShowNat(n));
    ParseDigits(ShowNat(n));
    ShowNatValue(n);
  }

  /** The row after the update: identity only for LOCAL users, every other field always. */
  function EditedUser(u: UserRow, f: UserForm): (e: UserRow)
    ensures e.id == u.id && e.provider == u.provider && e.passwordHash == u.passwordHash
  {
    var identity := u.provider == Local;
    u.(name := if identity then Strip(f.name) else u.name,
       email := if identity then Lower(Strip(f.email)) else u.email,
       roleId := OptInt(DigitId(f.roleId)),
       isActive := f.isActive == "1",
       companyBranchId := OptInt(DigitId(Strip(f.companyBranchId))),
       monthlyCtc := Ctc(f.monthlyCtc))
  }

  /** The profile after the update: every field is overwritten from the form. */
  function EditedProfile(userId: int, f: UserForm): (p: EmployeeProfile)
    ensures p.userId == userId
  {
    EmployeeProfile(userId, OrNone(f.employeeCode), OptInt(DigitId(f.designationId)),
                    OrNone(f.department), OptInt(DigitId(f.managerId)), OrNone(f.teamRole))
  }

  // ------------------------------------------------------------ assigned work

  /** A quote approval that still waits for this user. */
  predicate OpenFor(a: Approval, userId: int)
  {
    a.approverUserId == Some(userId) && (a.status == Pending || a.status == Waiting)
  }

  /** An active approval-rule step naming this user. */
  predicate StepFor(s: Step, userId: int)
  {
    s.isActive && s.approverUserId == Some(userId)
  }

  /** The `pending_count` query. */
  function PendingAssigned(approvals: seq<Approval>, userId: int): (n: nat)
    ensures n <= |approvals|
    ensures n > 0 <==> exists i :: 0 <= i < |approvals| && OpenFor(approvals[i], userId)
  {
    if approvals == [] then 0
    else
      var init := approvals[..|approvals| - 1];
      assert forall i :: 0 <= i < |init| ==> init[i] == approvals[i];
      PendingAssigned(init, userId) + (if OpenFor(approvals[|approvals| - 1], userId) then 1 else 0)
  }

  /** The `step_count` query. */
  function StepsAssigned(steps: seq<Step>, userId: int): (n: nat)
    ensures n <= |steps|
    ensures n > 0 <==> exists i :: 0 <= i < |steps| && StepFor(steps[i], userId)
  {
    if steps == [] then 0
    else
      var init := steps[..|steps| - 1];
      assert forall i :: 0 <= i < |init| ==> init[i] == steps[i];
      StepsAssigned(init, userId) + (if StepFor(steps[|steps| - 1], userId) then 1 else 0)
  }

  // ------------------------------------------------------------ table rules

  predicate UserIdsDistinct(users: seq<UserRow>)
  {
    forall i, j :: 0 <= i < j < |users| ==> users[i].id != users[j].id
  }

  /** `users.email` is unique. */
  predicate EmailsDistinct(users: seq<UserRow>)
  {
    forall i, j :: 0 <= i < j < |users| ==> users[i].email != users[j].email
  }

  /** `employee_profiles.user_id` is unique. */
  predicate OneProfilePerUser(profiles: seq<EmployeeProfile>)
  {
    forall i, j :: 0 <= i < j < |profiles| ==> profiles[i].userId != profiles[j].userId
  }

  /** `employee_profiles.employee_code` is unique where present. */
  predicate CodesDistinct(profiles: seq<EmployeeProfile>)
  {
    forall i, j :: 0 <= i < j < |profiles| && profiles[i].employeeCode.Some? ==>
      profiles[i].employeeCode != profiles[j].employeeCode
  }

  predicate TablesValid(users: seq<UserRow>, profiles: seq<EmployeeProfile>)
  {
    UserIdsDistinct(users) && EmailsDistinct(users) && OneProfilePerUser(profiles) && CodesDistinct(profiles)
  }

  function FindRow(users: seq<UserRow>, id: int): (k: Option<nat>)
    ensures k.Some? ==> k.value < |users| && users[k.value].id == id
    ensures k.None? ==> forall i :: 0 <= i < |users| ==> users[i].id != id
  {
    if users == [] then None
    else if users[|users| - 1].id == id then Some(|users| - 1)
    else FindRow(users[..|users| - 1], id)
  }

  function FindProfile(profiles: seq<EmployeeProfile>, userId: int): (k: Option<nat>)
    ensures k.Some? ==> k.value < |profiles| && profiles[k.value].userId == userId
    ensures k.None? ==> forall i :: 0 <= i < |profiles| ==> profiles[i].userId != userId
  {
    if profiles == [] then None
    else if profiles[|profiles| - 1].userId == userId then Some(|profiles| - 1)
    else FindProfile(profiles[..|profiles| - 1], userId)
  }

  /** `u.profile`, created when missing, replaced by `p`. */
  function WithProfile(profiles: seq<EmployeeProfile>, p: EmployeeProfile): seq<EmployeeProfile>
  {
    match FindProfile(profiles, p.userId)
    case Some(i) => profiles[i := p]
    case None => profiles + [p]
  }

  predicate EmailInUse(users: seq<UserRow>, email: string)
  {
    exists i :: 0 <= i < |users| && users[i].email == email
  }

  /** Another user's profile already holds this employee code. */
  predicate CodeTaken(profiles: seq<EmployeeProfile>, userId: int, code: Option<string>)
  {
    code.Some? && exists i :: 0 <= i < |profiles| && profiles[i].userId != userId && profiles[i].employeeCode == code
  }

  // ------------------------------------------------------------ update_user

  /**
   * The outcomes of update_user. EmployeeCodeTaken is the unique column
   * refusing the commit (a server error): nothing is saved.
   */
  datatype UpdateOutcome = UserNotFound | IdentityRequired | EmailTaken
                         | DeactivationBlocked(pending: nat, steps: nat) | EmployeeCodeTaken | UserUpdated

  /** The checks of update_user, in the order the handler makes them. */
  function UpdateDecision(users: seq<UserRow>, profiles: seq<EmployeeProfile>, userId: int, f: UserForm,
                          approvals: seq<Approval>, steps: seq<Step>): UpdateOutcome
  {
    match FindRow(users, userId)
    case None => UserNotFound
    case Some(k) =>
      var u := users[k];
      var email := Lower(Strip(f.email));
      if u.provider == Local && (IsBlank(f.name) || IsBlank(f.email)) then IdentityRequired
      else if u.provider == Local && email != u.email && EmailInUse(users, email) then EmailTaken
      else if u.isActive && f.isActive != "1" &&
              (PendingAssigned(approvals, u.id) > 0 || StepsAssigned(steps, u.id) > 0)
      then DeactivationBlocked(PendingAssigned(approvals, u.id), StepsAssigned(steps, u.id))
      else if CodeTaken(profiles, userId, OrNone(f.employeeCode)) then EmployeeCodeTaken
      else UserUpdated
  }

  /**
   * The deactivation guard: an active user with an open approval or an active
   * rule step assigned to them cannot be switched off.
   */
  lemma DeactivationRefusedWhileAssigned(users: seq<UserRow>, profiles: seq<EmployeeProfile>, userId: int,
                                         f: UserForm, approvals: seq<Approval>, steps: seq<Step>, i: nat)
    requires FindRow(users, userId).Some? && users[FindRow(users, userId).value].isActive && f.isActive != "1"
    requires (i < |approvals| && OpenFor(approvals[i], userId)) || (i < |steps| && StepFor(steps[i], userId))
    ensures UpdateDecision(users, profiles, userId, f, approvals, steps) != UserUpdated
  {
  }

  /** The guard fires only on an active-to-inactive change, and then only when work is assigned. */
  lemma GuardOnlyOnDeactivation(users: seq<UserRow>, profiles: seq<EmployeeProfile>, userId: int,
                                f: UserForm, approvals: seq<Approval>, steps: seq<Step>)
    requires FindRow(users, userId).Some?
    ensures UpdateDecision(users, profiles, userId, f, approvals, steps).DeactivationBlocked? ==>
              users[FindRow(users, userId).value].isActive && f.isActive != "1" &&
              ((exists i :: 0 <= i < |approvals| && OpenFor(approvals[i], userId)) ||
               (exists i :: 0 <= i < |steps| && StepFor(steps[i], userId)))
  {
  }

  /** Name and email of a non-LOCAL user are neither checked nor changed. */
  lemma IdentityOnlyForLocal(users: seq<UserRow>, profiles: seq<EmployeeProfile>, userId: int,
                             f: UserForm, approvals: seq<Approval>, steps: seq<Step>)
    requires FindRow(users, userId).Some?
    requires users[FindRow(users, userId).value].provider != Local
    ensures var d := UpdateDecision(users, profiles, userId, f, approvals, steps);
            d != IdentityRequired && d != EmailTaken
    ensures var u := users[FindRow(users, userId).value];
            EditedUser(u, f).name == u.name && EditedUser(u, f).email == u.email
  {
  }

  /** A LOCAL user's identity must be non-empty, and a changed email must be free. */
  lemma LocalIdentityChecked(users: seq<UserRow>, profiles: seq<EmployeeProfile>, userId: int,
                             f: UserForm, approvals: seq<Approval>, steps: seq<Step>)
    requires FindRow(users, userId).Some?
    requires users[FindRow(users, userId).value].provider == Local
    requires UpdateDecision(users, profiles, userId, f, approvals, steps) == UserUpdated
    ensures var u := users[FindRow(users, userId).value];
            var e := EditedUser(u, f);
            e.name != [] && e.email != [] && e.name == Strip(f.name) &&
            (e.email == u.email || !EmailInUse(users, e.email))
  {
  }

  /** The profile written is found under the user's id afterwards. */
  lemma WithProfileFinds(profiles: seq<EmployeeProfile>, p: EmployeeProfile)
    requires OneProfilePerUser(profiles)
    ensures OneProfilePerUser(WithProfile(profiles, p))
    ensures p in WithProfile(profiles, p)
    ensures |WithProfile(profiles, p)| == |profiles| + (if FindProfile(profiles, p.userId).Some? then 0 else 1)
  {
    var ps := WithProfile(profiles, p);
    match FindProfile(profiles, p.userId)
    case Some(i) => assert ps[i] == p;
    case None => assert ps[|profiles|] == p;
  }

  /** An accepted update keeps ids, emails, profiles and employee codes unique. */
  lemma UpdateKeepsTablesValid(users: seq<UserRow>, profiles: seq<EmployeeProfile>, userId: int,
                               f: UserForm, approvals: seq<Approval>, steps: seq<Step>)
    requires TablesValid(users, profiles)
    requires UpdateDecision(users, profiles, userId, f, approvals, steps) == UserUpdated
    ensures var k := FindRow(users, userId).value;
            TablesValid(users[k := EditedUser(users[k], f)], WithProfile(profiles, EditedProfile(userId, f)))
  {
    var k := FindRow(users, userId).value;
    var e := EditedUser(users[k], f);
    var us := users[k := e];
    forall i, j | 0 <= i < j < |us|
      ensures us[i].email != us[j].email
    {
      if i == k || j == k {
        var other := if i == k then j else i;
        assert us[other] == users[other];
        if e.email != users[k].email {
          assert !EmailInUse(users, e.email);
        }
      }
    }
    var p := EditedProfile(userId, f);
    var ps := WithProfile(profiles, p);
    WithProfileFinds(profiles, p);
    forall i, j | 0 <= i < j < |ps| && ps[i].employeeCode.Some?
      ensures ps[i].employeeCode != ps[j].employeeCode
    {
      match FindProfile(profiles, userId)
      case Some(x) =>
        if i == x || j == x {
          var other := if i == x then j else i;
          assert ps[other] == profiles[other] && ps[other].userId != userId;
        }
      case None =>
        if j == |profiles| {
          assert ps[i] == profiles[i] && ps[i].userId != userId;
        }
    }
  }

  // ------------------------------------------------------------ reset_password

  datatype ResetOutcome = ResetUserNotFound | PasswordNotManaged | NewPasswordRequired | PasswordReset

  class UserDirectory {
    var users: seq<UserRow>
    var profiles: seq<EmployeeProfile>

    predicate Valid()
      reads this
    {
      TablesValid(users, profiles)
    }

    constructor ()
      ensures Valid() && users == [] && profiles == []
    {
      users := [];
      profiles := [];
    }

    /**
     * update_user: branch, monthly CTC and role are always written, name and
     * email only for LOCAL users, is_active only past the deactivation guard;
     * the profile is created when missing and all its fields are overwritten.
     * A refused update saves nothing.
     */
    method UpdateUser(userId: int, f: UserForm, approvals: seq<Approval>, steps: seq<Step>)
      returns (outcome: UpdateOutcome)
      requires Valid()
      modifies this
      ensures Valid()
      ensures outcome == UpdateDecision(old(users), old(profiles), userId, f, approvals, steps)
      ensures outcome == UserUpdated ==>
                var k := FindRow(old(users), userId).value;
                users == old(users)[k := EditedUser(old(users)[k], f)] &&
                profiles == WithProfile(old(profiles), EditedProfile(userId, f))
      ensures outcome != UserUpdated ==> users == old(users) && profiles == old(profiles)
    {
      var found := FindRow(users, userId);
      if found.None? {
        return UserNotFound;
      }
      var k := found.value;
      var u := users[k];
      var canEditIdentity := u.provider == Local;
      var name := Strip(f.name);
      var email := Lower(Strip(f.email));
      var isActive := f.isActive == "1";
      var edited := u.(companyBranchId := OptInt(DigitId(Strip(f.companyBranchId))), monthlyCtc := Ctc(f.monthlyCtc));
      if canEditIdentity {
        if name == [] || email == [] {
          return IdentityRequired;
        }
        if email != u.email && EmailInUse(users, email) {
          return EmailTaken;
        }
        edited := edited.(name := name, email := email);
      }
      edited := edited.(roleId := OptInt(DigitId(f.roleId)));
      if u.isActive && !isActive {
        var pending := PendingAssigned(approvals, u.id);
        var stepCount := StepsAssigned(steps, u.id);
        if pending > 0 || stepCount > 0 {
          return DeactivationBlocked(pending, stepCount);
        }
      }
      edited := edited.(isActive := isActive);
      var prof := EditedProfile(u.id, f);
      if CodeTaken(profiles, u.id, prof.employeeCode) {
        return EmployeeCodeTaken;
      }
      UpdateKeepsTablesValid(users, profiles, userId, f, approvals, steps);
      users := users[k := edited];
      profiles := WithProfile(profiles, prof);
      return UserUpdated;
    }

    /**
     * reset_password: only a LOCAL user's hash is replaced, and only by the
     * hash of a non-empty password. `hashed` is the hash library's output for
     * `newPassword`, which its own check `matches` accepts.
     */
    method ResetPassword(userId: int, newPassword: string, hashed: string, matches: (string, string) -> bool)
      returns (outcome: ResetOutcome)
      requires Valid()
      requires hashed != "" && matches(hashed, newPassword)
      modifies this
      ensures Valid() && profiles == old(profiles)
      ensures outcome == PasswordReset <==>
                FindRow(old(users), userId).Some? && old(users)[FindRow(old(users), userId).value].provider == Local &&
                newPassword != ""
      ensures outcome == PasswordReset ==>
                var k := FindRow(old(users), userId).value;
                users == old(users)[k := old(users)[k].(passwordHash := hashed)] &&
                CheckPassword(AsAccount(users[k], None), newPassword, matches)
      ensures outcome != PasswordReset ==> users == old(users)
    {
      var found := FindRow(users, userId);
      if found.None? {
        return ResetUserNotFound;
      }
      var k := found.value;
      if users[k].provider != Local {
        return PasswordNotManaged;
      }
      if newPassword == "" {
        return NewPasswordRequired;
      }
      users := users[k := users[k].(passwordHash := hashed)];
      return PasswordReset;
    }
  }
}
