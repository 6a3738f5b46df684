/**
 * The wrapper around every admin page: where it redirects and what it
 * renders. `isLoading` is whatever the session context supplies under that
 * name (`None`: the context supplies nothing, which reads as false).
 */
module AdminGuard {
  import opened Wrappers
  import AuthContext

  /** What a guard renders. */
  datatype View = Skeleton | Nothing | Children

  /** The redirect the guard's effect issues, if any. */
  function Redirect(isLoading: Option<bool>, user: Option<AuthContext.ClientUser>): (r: Option<string>)
    ensures AuthContext.Flag(isLoading) ==> r.None?
    ensures !AuthContext.Flag(isLoading) && user.None? ==> r == Some("/login")
    ensures !AuthContext.Flag(isLoading) && user.Some? ==>
      (r == Some("/") <==> !AuthContext.Flag(user.value.isSuperuser))
    ensures r.None? <==> AuthContext.Flag(isLoading) || (user.Some? && AuthContext.Flag(user.value.isSuperuser))
  {
    if AuthContext.Flag(isLoading) then None
    else if !AuthContext.FlagsOf(user).isAuthenticated then Some("/login")
    else if !AuthContext.Flag(user.value.isSuperuser) then Some("/")
    else None
  }

  function Render(isLoading: Option<bool>, user: Option<AuthContext.ClientUser>): (v: View)
    ensures v == Skeleton <==> AuthContext.Flag(isLoading)
    ensures v == Children <==> !AuthContext.Flag(isLoading) && user.Some? && AuthContext.Flag(user.value.isSuperuser)
  {
    if AuthContext.Flag(isLoading) then Skeleton
    else if user.Some? && AuthContext.Flag(user.value.isSuperuser) then Children
    else Nothing
  }

  /** Admin pages are shown exactly when the guard does not send the visitor away. */
  lemma ChildrenIffNoRedirect(isLoading: Option<bool>, user: Option<AuthContext.ClientUser>)
    ensures Render(isLoading, user) == Children <==> !AuthContext.Flag(isLoading) && Redirect(isLoading, user).None?
    ensures Render(isLoading, user) == Nothing <==> Redirect(isLoading, user).Some?
  {
  }

  /**
   * With a context that supplies no loading flag and a user record without
   * `is_superuser` (the profile payload), the skeleton never shows and
   * every signed-in visitor, a superuser included, is sent to `/`.
   */
  lemma ProfileWithoutFlagLocksEveryoneOut(user: AuthContext.ClientUser)
    requires user.isSuperuser.None?
    ensures Render(None, Some(user)) == Nothing
    ensures Redirect(None, Some(user)) == Some("/")
    ensures Redirect(None, None) == Some("/login") && Render(None, None) == Nothing
  {
  }
}
