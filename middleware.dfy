/**
 * The role-based routing decision of the request middleware
 * (src/middleware.ts): who is sent to sign in, redirected, shown the
 * not-found page, or let through.
 */
module Middleware {
  import opened Wrappers
  import opened Strings

  datatype Outcome =
    | SignIn(returnBackUrl: string)
    | Redirect(path: string)
    | Rewrite(path: string)
    | Next

  /** `createRouteMatcher(['/app(.*)'])`. */
  predicate IsGeneralRoute(pathname: string)
  {
    StartsWith(pathname, "/app")
  }

  /** `createRouteMatcher(['/operador(.*)'])`. */
  predicate IsOperadorRoute(pathname: string)
  {
    StartsWith(pathname, "/operador")
  }

  /** A signed-in request has a non-empty user id. */
  predicate SignedIn(userId: Option<string>)
  {
    userId.Some? && userId.value != ""
  }

  /**
   * The decision for a request: `role` is the session's role claim when it
   * is a string, `url` the full request URL.
   */
  function Decide(userId: Option<string>, role: Option<string>, pathname: string, url: string): (o: Outcome)
    ensures !SignedIn(userId) ==> o == SignIn(url)
    ensures SignedIn(userId) && pathname == "/" ==>
      o == (if role == Some("general") then Redirect("/app")
            else if role == Some("operador") then Redirect("/operador")
            else Rewrite("/404"))
    ensures SignedIn(userId) && pathname != "/" && IsGeneralRoute(pathname) && role != Some("general") ==> o == Redirect("/")
    ensures SignedIn(userId) && pathname != "/" && IsOperadorRoute(pathname) && role != Some("operador") ==> o == Redirect("/")
    ensures o == Next <==> (SignedIn(userId) && pathname != "/"
      && (IsGeneralRoute(pathname) ==> role == Some("general"))
      && (IsOperadorRoute(pathname) ==> role == Some("operador")))
  {
    if !SignedIn(userId) then SignIn(url)
    else if pathname == "/" then
      if role == Some("general") then Redirect("/app")
      else if role == Some("operador") then Redirect("/operador")
      else Rewrite("/404")
    else if IsGeneralRoute(pathname) && role != Some("general") then Redirect("/")
    else if IsOperadorRoute(pathname) && role != Some("operador") then Redirect("/")
    else Next
  }

  /** No path is both a general and an operator route, so at most one guard applies. */
  lemma RoutesAreDisjoint(pathname: string)
    ensures !(IsGeneralRoute(pathname) && IsOperadorRoute(pathname))
  {
    if IsGeneralRoute(pathname) {
      assert pathname[1] == "/app"[1] == 'a';
    }
  }

  /**
   * A general user on a general route and an operator on an operator route
   * are always let through; a redirect to "/" never sends a user who is
   * already on "/" anywhere else than the role's home or the not-found page.
   */
  lemma OwnRoutesPass(userId: Option<string>, role: Option<string>, pathname: string, url: string)
    requires SignedIn(userId) && pathname != "/"
    ensures IsGeneralRoute(pathname) && role == Some("general") ==> Decide(userId, role, pathname, url) == Next
    ensures IsOperadorRoute(pathname) && role == Some("operador") ==> Decide(userId, role, pathname, url) == Next
  {
    RoutesAreDisjoint(pathname);
  }
}
