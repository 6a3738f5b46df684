/**
 * The wrapper around the provider dashboard pages: its redirects, whether
 * it renders, and whether it shows the subscription banner.
 */
module DashboardLayout {
  import opened Wrappers
  import Users
  import AuthContext
  import AdminGuard

  function Redirect(isLoading: Option<bool>, user: Option<AuthContext.ClientUser>): (r: Option<string>)
    ensures AuthContext.Flag(isLoading) ==> r.None?
    ensures !AuthContext.Flag(isLoading) && user.None? ==> r == Some("/login")
    ensures !AuthContext.Flag(isLoading) && user.Some? ==>
      (r == Some("/admin") <==> AuthContext.Flag(user.value.isSuperuser))
    ensures r.Some? ==> r == Some("/login") || r == Some("/admin")
  {
    if AuthContext.Flag(isLoading) then None
    else if user.None? then Some("/login")
    else if AuthContext.Flag(user.value.isSuperuser) then Some("/admin")
    else None
  }

  function Render(isLoading: Option<bool>, user: Option<AuthContext.ClientUser>): (v: AdminGuard.View)
    ensures v == AdminGuard.Skeleton <==> AuthContext.Flag(isLoading)
    ensures v == AdminGuard.Children <==>
      !AuthContext.Flag(isLoading) && user.Some? && !AuthContext.Flag(user.value.isSuperuser)
  {
    if AuthContext.Flag(isLoading) then AdminGuard.Skeleton
    else if user.None? || AuthContext.Flag(user.value.isSuperuser) then AdminGuard.Nothing
    else AdminGuard.Children
  }

  /** The subscription banner: a provider whose subscription status is not `active`, a missing status included. */
  predicate ShowsBanner(user: AuthContext.ClientUser)
  {
    user.userType == Users.Provider && user.subscriptionStatus != Some("active")
  }

  /** The dashboard wrapper and the admin guard never both show their pages to the same visitor. */
  lemma DashboardAndAdminExclusive(isLoading: Option<bool>, user: Option<AuthContext.ClientUser>)
    ensures !(Render(isLoading, user) == AdminGuard.Children && AdminGuard.Render(isLoading, user) == AdminGuard.Children)
    ensures Render(isLoading, user) == AdminGuard.Children <==> Redirect(isLoading, user).None? && !AuthContext.Flag(isLoading)
  {
  }

  /** Without a subscription status in the user record, every provider sees the banner; a renter never does. */
  lemma BannerWithoutStatus(user: AuthContext.ClientUser)
    ensures user.subscriptionStatus.None? ==> (ShowsBanner(user) <==> user.userType == Users.Provider)
    ensures user.userType == Users.Renter ==> !ShowsBanner(user)
  {
  }
}
