/** The guard around every admin page (src/components/admin/ProtectedRoute.tsx). */
module ProtectedRoute {
  import opened Wrappers

  const LOGIN_PATH := "/admin/login"

  /** What the guard renders. */
  datatype RouteOutcome = Spinner | Redirect(to: string, replace: bool) | Children

  /** The two early returns over `loading` and `user`. */
  function Decide<U>(loading: bool, user: Option<U>): (r: RouteOutcome)
    ensures r.Spinner? <==> loading
    ensures r.Redirect? <==> !loading && user.None?
    ensures r.Children? <==> !loading && user.Some?
    ensures r.Redirect? ==> r.to == LOGIN_PATH && r.replace
  {
    if loading then Spinner
    else if user.None? then Redirect(LOGIN_PATH, true)
    else Children
  }

  /** While the session is resolving, who the user is makes no difference. */
  lemma LoadingIgnoresUser<U>(a: Option<U>, b: Option<U>)
    ensures Decide(true, a) == Decide(true, b) == Spinner
  {
  }

  /** The children are reached only with a user and after loading. */
  lemma ChildrenNeedUser<U>(loading: bool, user: Option<U>)
    ensures Decide(loading, user) == Children ==> user.Some? && !loading
    ensures Decide(loading, user) == Children || Decide(loading, user) == Spinner
      || Decide(loading, user) == Redirect(LOGIN_PATH, true)
  {
  }
}
