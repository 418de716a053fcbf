/** The authentication gate in front of every page: a decision from the login state and the path. */
module Middleware {
  import opened Wrappers
  import Text

  /** What the gate does with a request: let it through, or redirect, optionally with the page to come back to. */
  datatype Decision = Next | Redirect(path: string, callbackUrl: Option<string>)

  const PublicPaths: seq<string> := ["/login", "/api/auth"]

  /** `publicPaths.some(path => pathname.startsWith(path))`. */
  predicate IsPublicPath(pathname: string) {
    exists i :: 0 <= i < |PublicPaths| && Text.StartsWith(pathname, PublicPaths[i])
  }

  /** A path is public exactly when it starts with "/login" or "/api/auth". */
  lemma PublicPathIff(pathname: string)
    ensures IsPublicPath(pathname) <==> Text.StartsWith(pathname, "/login") || Text.StartsWith(pathname, "/api/auth")
  {
    assert PublicPaths[0] == "/login" && PublicPaths[1] == "/api/auth";
  }

  /** The gate. */
  function Decide(isLoggedIn: bool, pathname: string): (d: Decision)
    ensures IsPublicPath(pathname) && isLoggedIn && pathname == "/login" ==> d == Redirect("/chat", None)
    ensures IsPublicPath(pathname) && !(isLoggedIn && pathname == "/login") ==> d == Next
    ensures !IsPublicPath(pathname) && !isLoggedIn ==> d == Redirect("/login", Some(pathname))
    ensures !IsPublicPath(pathname) && isLoggedIn ==> d == Next
  {
    if IsPublicPath(pathname) then
      if isLoggedIn && pathname == "/login" then Redirect("/chat", None) else Next
    else if !isLoggedIn then Redirect("/login", Some(pathname))
    else Next
  }

  /** A visitor who is not signed in is never sent away from a public page, so the login page is reachable and redirects do not loop. */
  lemma LoginRedirectIsFinal(pathname: string)
    ensures Decide(false, pathname).Redirect? ==> Decide(false, Decide(false, pathname).path) == Next
    ensures Decide(false, "/login") == Next
  {
    assert Text.StartsWith("/login", PublicPaths[0]);
  }

  /** A signed-in user sent to the chat page is let through there. */
  lemma ChatRedirectIsFinal(pathname: string)
    ensures Decide(true, pathname).Redirect? ==> Decide(true, pathname) == Redirect("/chat", None) && Decide(true, "/chat") == Next
  {
  }

  /** Only a signed-out visitor of a protected page is asked to log in, and the callback brings them back to it. */
  lemma LoginRedirectKeepsPath(isLoggedIn: bool, pathname: string)
    ensures Decide(isLoggedIn, pathname).Redirect? && Decide(isLoggedIn, pathname).path == "/login" <==>
      !isLoggedIn && !IsPublicPath(pathname)
    ensures Decide(isLoggedIn, pathname) == Redirect("/login", Some(pathname)) <==> !isLoggedIn && !IsPublicPath(pathname)
  {
  }
}
