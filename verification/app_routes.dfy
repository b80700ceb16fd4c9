/**
 * The two route guards: protected pages need a session, the login page
 * needs its absence, and neither decides while the session is loading.
 */
module AppRoutes {
  import opened Wrappers

  /** The signed-in session; only its presence matters to the guards. */
  datatype Session = Session(userId: string)

  /** What a guard renders. */
  datatype Outcome =
    | Spinner                        // loading indicator
    | Nothing                        // renders null
    | Redirect(to: string)           // <Navigate replace />
    | Children(inLayout: bool)       // the guarded page, inside the dashboard layout or bare

  /** `ProtectedRoute`: spinner while loading, the login page without a session, else the page in the layout. */
  function ProtectedRoute(loading: bool, session: Option<Session>): (r: Outcome)
    ensures loading <==> r == Spinner
    ensures r.Redirect? <==> !loading && session.None?
    ensures r.Redirect? ==> r.to == "/login"
    ensures r.Children? <==> !loading && session.Some?
    ensures r.Children? ==> r.inLayout
  {
    if loading then Spinner
    else if session.None? then Redirect("/login")
    else Children(true)
  }

  /** `AuthRoute`: nothing while loading, the dashboard with a session, else the bare page. */
  function AuthRoute(loading: bool, session: Option<Session>): (r: Outcome)
    ensures loading <==> r == Nothing
    ensures r.Redirect? <==> !loading && session.Some?
    ensures r.Redirect? ==> r.to == "/"
    ensures r.Children? <==> !loading && session.None?
    ensures r.Children? ==> !r.inLayout
  {
    if loading then Nothing
    else if session.Some? then Redirect("/")
    else Children(false)
  }

  /**
   * Once loading is over, exactly one of the two guards shows its page and the
   * other redirects; while loading, neither shows a page nor redirects.
   */
  lemma GuardsComplement(loading: bool, session: Option<Session>)
    ensures !loading ==> (ProtectedRoute(loading, session).Children? <==> !AuthRoute(loading, session).Children?)
    ensures !loading ==> (ProtectedRoute(loading, session).Redirect? <==> AuthRoute(loading, session).Children?)
    ensures loading ==> !ProtectedRoute(loading, session).Children? && !ProtectedRoute(loading, session).Redirect?
    ensures loading ==> !AuthRoute(loading, session).Children? && !AuthRoute(loading, session).Redirect?
  {
  }
}
