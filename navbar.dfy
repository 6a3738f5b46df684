/** The site header: where the logo leads, which links show, and what logging out does. */
module Navbar {
  import opened Wrappers
  import Users
  import AuthContext

  /** The logo's target. */
  function LogoTarget(user: Option<AuthContext.ClientUser>): (t: string)
    ensures user.None? ==> t == "/"
    ensures user.Some? && AuthContext.Flag(user.value.isSuperuser) ==> t == "/admin"
    ensures user.Some? && !AuthContext.Flag(user.value.isSuperuser) ==>
      t == (if user.value.userType == Users.Provider then "/dashboard" else "/tools")
  {
    if !AuthContext.FlagsOf(user).isAuthenticated then "/"
    else if AuthContext.Flag(user.value.isSuperuser) then "/admin"
    else if user.value.userType == Users.Provider then "/dashboard"
    else "/tools"
  }

  /** The links shown, in order, by target. */
  function Links(user: Option<AuthContext.ClientUser>): (ls: seq<string>)
    ensures |ls| >= 1 && ls[0] == "/tools"
    ensures user.None? ==> ls == ["/tools", "/login", "/register"]
    ensures "/bookings" in ls <==> user.Some? && !AuthContext.Flag(user.value.isSuperuser)
    ensures "/admin" in ls <==> user.Some? && AuthContext.Flag(user.value.isSuperuser)
    ensures "/tools/new" in ls <==>
      user.Some? && !AuthContext.Flag(user.value.isSuperuser) && user.value.userType == Users.Provider
    ensures "/dashboard" in ls <==> "/tools/new" in ls
    ensures "/login" in ls <==> user.None?
  {
    if user.None? then ["/tools", "/login", "/register"]
    else
      var bookings := if !AuthContext.Flag(user.value.isSuperuser) then ["/bookings"] else [];
      var role :=
        if AuthContext.Flag(user.value.isSuperuser) then ["/admin"]
        else if user.value.userType == Users.Provider then ["/tools/new", "/dashboard"]
        else [];
      ["/tools"] + bookings + role
  }

  /** The logo always points at a page the header also links to, or at the home page when signed out. */
  lemma LogoIsLinked(user: Option<AuthContext.ClientUser>)
    ensures user.Some? ==> LogoTarget(user) in Links(user)
    ensures user.None? ==> LogoTarget(user) == "/" && "/" !in Links(user)
  {
  }

  /** Confirming logout: the session is cleared, then the visitor is sent home. */
  method ConfirmLogout(session: AuthContext.AuthProvider) returns (navigateTo: string)
    modifies session
    ensures session.user.None? && session.accessToken.None?
    ensures session.storage == old(session.storage) - {AuthContext.AccessKey, AuthContext.RefreshKey}
    ensures navigateTo == "/" && Links(session.user) == ["/tools", "/login", "/register"]
  {
    session.Logout();
    navigateTo := "/";
  }
}
