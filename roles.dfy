/** The console's user roles and the role check its routes and menus use. */
module Roles {
  import opened Js

  /** `UserRole`: the two roles, each carried as its string value. */
  datatype UserRole = Admin | AreasStaff

  function RoleName(r: UserRole): string
  {
    match r
    case Admin => "Admin"
    case AreasStaff => "Areas_STAFF"
  }

  /** `allowedRoles.some(role => role === userRole)`. */
  function SomeRoleIs(allowed: seq<UserRole>, userRole: string): (r: bool)
    ensures r <==> exists i :: 0 <= i < |allowed| && RoleName(allowed[i]) == userRole
  {
    if allowed == [] then false
    else if RoleName(allowed[0]) == userRole then true
    else
      assert forall i :: 1 <= i < |allowed| ==> allowed[i] == allowed[1..][i - 1];
      SomeRoleIs(allowed[1..], userRole)
  }

  /** `hasAnyRole`: a missing or empty role is never allowed; otherwise the
      role is allowed when it is the value of one of the allowed roles. */
  function HasAnyRole(userRole: Option<string>, allowed: seq<UserRole>): (r: bool)
    ensures !Present(userRole) ==> !r
    ensures Present(userRole) ==> (r <==> exists i :: 0 <= i < |allowed| && RoleName(allowed[i]) == userRole.value)
  {
    if !Present(userRole) then false else SomeRoleIs(allowed, userRole.value)
  }

  /** A user passes the check exactly when their role names one allowed
      role: each role has its own name. */
  lemma HasAnyRoleExactly(userRole: Option<string>, allowed: seq<UserRole>)
    ensures HasAnyRole(userRole, allowed) <==>
            exists r :: r in allowed && userRole == Some(RoleName(r))
  {
    if HasAnyRole(userRole, allowed) {
      var i :| 0 <= i < |allowed| && RoleName(allowed[i]) == userRole.value;
      assert allowed[i] in allowed;
    }
    if exists r :: r in allowed && userRole == Some(RoleName(r)) {
      var r :| r in allowed && userRole == Some(RoleName(r));
      var i :| 0 <= i < |allowed| && allowed[i] == r;
      assert RoleName(r) != "";
    }
  }

  /** No allowed role admits nobody. */
  lemma NoAllowedRoles(userRole: Option<string>)
    ensures !HasAnyRole(userRole, [])
  {
  }

  /** Allowing more roles never turns a pass into a failure. */
  lemma AllowMoreRoles(userRole: Option<string>, allowed: seq<UserRole>, more: seq<UserRole>)
    requires forall i :: 0 <= i < |allowed| ==> allowed[i] in more
    requires HasAnyRole(userRole, allowed)
    ensures HasAnyRole(userRole, more)
  {
    var i :| 0 <= i < |allowed| && RoleName(allowed[i]) == userRole.value;
    var j :| 0 <= j < |more| && more[j] == allowed[i];
  }
}
