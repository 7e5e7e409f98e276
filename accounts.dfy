/**
 * Users, roles and permissions of a tenant database (the `User`, `Role` and
 * `Permission` models) and the two questions the routes ask of a user:
 * `has_perm` and `check_password`.
 */
module Accounts {
  import opened Wrappers

  /** A role with the codes of the permissions linked to it. */
  datatype Role = Role(name: string, permissions: seq<string>)

  /** Who signs in: LOCAL users own a password, HRMS/SSO users do not. */
  datatype Provider = Local | Hrms | Sso

  datatype User = User(
    id: int, email: string, name: string, passwordHash: string,
    isActive: bool, provider: Provider, role: Option<Role>)

  /** `User.has_perm`: no role means no permission; otherwise some linked permission has exactly that code. */
  predicate HasPerm(u: User, code: string)
  {
    u.role.Some? && exists i :: 0 <= i < |u.role.value.permissions| && u.role.value.permissions[i] == code
  }

  /** `_user_perm_codes`: the set of the role's codes, empty for no user or no role. */
  function PermCodes(u: Option<User>): (codes: set<string>)
    ensures u.None? || u.value.role.None? ==> codes == {}
  {
    if u.None? || u.value.role.None? then {}
    else set i | 0 <= i < |u.value.role.value.permissions| :: u.value.role.value.permissions[i]
  }

  /** The sidebar's set of codes and `has_perm` agree on every code. */
  lemma PermCodesAgreeWithHasPerm(u: User, code: string)
    ensures code in PermCodes(Some(u)) <==> HasPerm(u, code)
  {
    if HasPerm(u, code) {
      var i :| 0 <= i < |u.role.value.permissions| && u.role.value.permissions[i] == code;
      assert u.role.value.permissions[i] in PermCodes(Some(u));
    }
  }

  /**
   * `User.check_password`: an empty stored hash refuses every password before
   * any hash comparison; otherwise the answer is the hash library's, given here
   * as `matches`.
   */
  function CheckPassword(u: User, password: string, matches: (string, string) -> bool): (ok: bool)
    ensures ok ==> u.passwordHash != [] && matches(u.passwordHash, password)
  {
    if u.passwordHash == [] then false else matches(u.passwordHash, password)
  }
}
