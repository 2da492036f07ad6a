/** frontend/src/layout/MenuBarController: the menu bar is left out on the authentication pages. */
module MenuBarController {
  import opened Wrappers

  const AuthPaths: seq<string> := ["/login", "/signup"]

  /** isAuthPage: exact membership in the two authentication paths (a null pathname is not a member). */
  function IsAuthPage(pathname: Option<string>): (r: bool)
    ensures r <==> pathname == Some("/login") || pathname == Some("/signup")
  {
    pathname.Some? && pathname.value in AuthPaths
  }

  function ShowMenuBar(pathname: Option<string>): (show: bool)
    ensures show <==> !IsAuthPage(pathname)
  {
    !IsAuthPage(pathname)
  }

  /** The match is exact: sub-paths of the authentication pages and every other path render the bar. */
  lemma ExactMatchOnly(p: string)
    requires p != "/login" && p != "/signup"
    ensures ShowMenuBar(Some(p))
    ensures ShowMenuBar(Some("/login/x")) && ShowMenuBar(Some("/")) && ShowMenuBar(None)
  {
  }
}
