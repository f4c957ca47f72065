/** The route guard: while the session is loading it shows a loader; a page
    that needs a user sends visitors without one to the login page (remembering
    where they came from); a page for visitors only sends signed-in users home;
    anything else renders the page. */
module ProtectedRoute {

  /** What the guard renders; `from` is the location kept in the redirect's state. */
  datatype Decision =
    | Loader
    | Redirect(to: string, from: string, carriesFrom: bool)
    | Children

  /** The prop defaults: `requireAuth = true`, `redirectTo = '/login'`. */
  const DefaultRequireAuth: bool := true
  const DefaultRedirectTo: string := "/login"

  /** `ProtectedRoute({ requireAuth, redirectTo })` with `loading` and the
      presence of a user from the auth context and `location` the current path. */
  function Decide(loading: bool, requireAuth: bool, hasUser: bool, redirectTo: string, location: string): (d: Decision)
    ensures d == Loader <==> loading
    ensures d == Redirect(redirectTo, location, true) <==> !loading && requireAuth && !hasUser
    ensures d == Redirect("/", "", false) <==> !loading && !requireAuth && hasUser
    ensures d == Children <==> !loading && requireAuth == hasUser
  {
    if loading then Loader
    else if requireAuth && !hasUser then Redirect(redirectTo, location, true)
    else if !requireAuth && hasUser then Redirect("/", "", false)
    else Children
  }

  /** The guard with both props left at their defaults. */
  function DecideDefault(loading: bool, hasUser: bool, location: string): Decision
  {
    Decide(loading, DefaultRequireAuth, hasUser, DefaultRedirectTo, location)
  }

  /** Once loaded, the page renders exactly when the user's presence is what the
      page asks for, and redirects otherwise. */
  lemma ChildrenIffSatisfied(requireAuth: bool, hasUser: bool, redirectTo: string, location: string)
    ensures Decide(false, requireAuth, hasUser, redirectTo, location).Children? <==> requireAuth == hasUser
    ensures Decide(false, requireAuth, hasUser, redirectTo, location).Redirect? <==> requireAuth != hasUser
  {
  }

  /** By default a guarded page sends a visitor without a user to '/login',
      carrying the current location, and shows a signed-in user the page. */
  lemma DefaultGuard(location: string)
    ensures DecideDefault(false, false, location) == Redirect("/login", location, true)
    ensures DecideDefault(false, true, location) == Children
    ensures DecideDefault(true, false, location) == Loader && DecideDefault(true, true, location) == Loader
  {
  }
}
