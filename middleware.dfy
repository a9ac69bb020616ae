/** The frontend's route guard: the admin and operator dashboards each redirect a
    visitor whose role cookie does not match. */
module Middleware {
  import opened Base

  datatype Response = Redirect(to: string) | Next

  const AdminPrefix := "/dashboard/admin"
  const OperatorPrefix := "/dashboard/operator"

  /** `middleware(req)` for the request path and the `role` cookie, if any. */
  function Decide(path: string, role: Option<string>): (r: Response)
    ensures r == Redirect(OperatorPrefix) ==> StartsWith(path, AdminPrefix) && role != Some("admin")
    ensures r == Redirect(AdminPrefix) ==> StartsWith(path, OperatorPrefix) && role != Some("operator")
    ensures r.Redirect? ==> r.to == AdminPrefix || r.to == OperatorPrefix
    ensures !StartsWith(path, AdminPrefix) && !StartsWith(path, OperatorPrefix) ==> r == Next
  {
    if StartsWith(path, AdminPrefix) && role != Some("admin") then Redirect(OperatorPrefix)
    else if StartsWith(path, OperatorPrefix) && role != Some("operator") then Redirect(AdminPrefix)
    else Next
  }

  /** The two prefixes differ at their eleventh character, so no path has both. */
  lemma PrefixesDisjoint(path: string)
    ensures !(StartsWith(path, AdminPrefix) && StartsWith(path, OperatorPrefix))
  {
    if StartsWith(path, AdminPrefix) {
      assert path[11] == path[..|AdminPrefix|][11] == 'a';
      if |path| >= |OperatorPrefix| {
        assert path[..|OperatorPrefix|][11] == 'a' != OperatorPrefix[11];
      }
    }
  }

  /** Exactly one rule decides: the admin area sends every other role (or a missing
      cookie) to the operator area, the operator area sends them to the admin area,
      and every other request passes. */
  lemma DecideCases(path: string, role: Option<string>)
    ensures Decide(path, role) == Redirect(OperatorPrefix) <==> StartsWith(path, AdminPrefix) && role != Some("admin")
    ensures Decide(path, role) == Redirect(AdminPrefix) <==> StartsWith(path, OperatorPrefix) && role != Some("operator")
    ensures Decide(path, role) == Next <==>
      (StartsWith(path, AdminPrefix) ==> role == Some("admin")) && (StartsWith(path, OperatorPrefix) ==> role == Some("operator"))
  {
    PrefixesDisjoint(path);
  }

  /** The match is on the raw prefix: `/dashboard/administrator` is guarded too,
      and `/dashboard` itself is not. */
  lemma RawPrefix(role: Option<string>)
    requires role != Some("admin")
    ensures Decide("/dashboard/administrator", role) == Redirect(OperatorPrefix)
    ensures Decide("/dashboard", role) == Next
  {
    assert "/dashboard/administrator"[..|AdminPrefix|] == AdminPrefix;
  }

  /** A matching role always passes. */
  lemma MatchingRolePasses(path: string)
    ensures StartsWith(path, AdminPrefix) ==> Decide(path, Some("admin")) == Next
    ensures StartsWith(path, OperatorPrefix) ==> Decide(path, Some("operator")) == Next
  {
    PrefixesDisjoint(path);
  }
}
