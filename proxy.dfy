/**
 * The request guard: a request for a protected path without a session
 * token is redirected to the login page, carrying the original path as
 * `callbackUrl`; every other request passes through. Whether a token is
 * present is decided by the session library, a parameter here.
 */
module Proxy {
  import opened Wrappers
  import opened Text
  import opened SearchParams

  /** A plain prefix test, so "/dashboardX" counts as protected too. */
  predicate IsProtected(pathname: string)
    ensures StartsWith(pathname, "/dashboard/") ==> IsProtected(pathname)
    ensures StartsWith(pathname, "/api/protected/") ==> IsProtected(pathname)
    ensures pathname == "" || pathname[0] != '/' ==> !IsProtected(pathname)
  {
    StartsWith(pathname, "/dashboard") || StartsWith(pathname, "/api/protected")
  }

  /** The guard's answer. */
  datatype Response = Redirect(path: string, query: Entries) | Next

  function Decide(pathname: string, hasToken: bool): (r: Response)
    ensures r.Redirect? <==> IsProtected(pathname) && !hasToken
    ensures r.Redirect? ==> r.path == "/login" && Get(r.query, "callbackUrl") == Some(pathname)
    ensures r.Redirect? ==> forall name :: name != "callbackUrl" ==> Get(r.query, name) == None
  {
    if IsProtected(pathname) && !hasToken then
      var query := SetEntry([], "callbackUrl", pathname);
      SetNewName([], "callbackUrl", pathname);
      assert query == [("callbackUrl", pathname)];
      Redirect("/login", query)
    else Next
  }

  /** An unprotected path is never redirected, token or not. */
  lemma UnprotectedPassesThrough(pathname: string, hasToken: bool)
    requires !IsProtected(pathname)
    ensures Decide(pathname, hasToken) == Next
  {
  }

  /** A token always lets the request through. */
  lemma TokenPassesThrough(pathname: string)
    ensures Decide(pathname, true) == Next
  {
  }

  /** The prefix test also guards paths that only begin like the dashboard. */
  lemma PrefixAlsoMatchesDashboardX()
    ensures IsProtected("/dashboardX")
    ensures Decide("/dashboardX", false).Redirect?
  {
    assert "/dashboardX"[..|"/dashboard"|] == "/dashboard";
  }
}
