/** The navigator: which screens are registered for each session status. */
module Navigation {
  import opened Session

  datatype Route = Login | Register | ResetPasswordRequest | ResetPassword | Home | Users | Placeholder

  /** What the navigation container renders. */
  datatype Rendered =
    | LoadingScreen                 // the spinner alone, no stack
    | Stack(routes: seq<Route>)     // a stack navigator with these screens, in order

  /** `AppNavigator`. */
  function Navigator(status: Status): (r: Rendered)
    ensures r.LoadingScreen? <==> status == Checking
    ensures r.Stack? ==> |r.routes| > 0 && r.routes[|r.routes| - 1] == Users
  {
    if status == Checking then LoadingScreen
    else if status != SignedIn then Stack([Login, Register, ResetPasswordRequest, ResetPassword, Users])
    else Stack([Home, Placeholder, Users])
  }

  /** `route` is a screen the navigator currently registers. */
  predicate Reachable(status: Status, route: Route) {
    var r := Navigator(status);
    r.Stack? && route in r.routes
  }

  /** Each status registers exactly the screens listed for it, and only those. */
  lemma RoutesPerStatus(route: Route)
    ensures !Reachable(Checking, route)
    ensures Reachable(SignedOut, route) <==>
      route in {Login, Register, ResetPasswordRequest, ResetPassword, Users}
    ensures Reachable(SignedIn, route) <==> route in {Home, Placeholder, Users}
  {
  }

  /** Home only when signed in, Login only when signed out, Users in both settled states. */
  lemma Gating(status: Status)
    ensures Reachable(status, Home) <==> status == SignedIn
    ensures Reachable(status, Login) <==> status == SignedOut
    ensures Reachable(status, Users) <==> status != Checking
    ensures Reachable(status, ResetPassword) <==> status == SignedOut
  {
  }

  /** No screen is registered both before and after signing in, except the user list. */
  lemma SignedInAndOutShareOnlyUsers(route: Route)
    requires Reachable(SignedIn, route) && Reachable(SignedOut, route)
    ensures route == Users
  {
  }
}
