/** The gate in front of the dashboard: a spinner, the login page, or the dashboard. */
module AuthGate {
  import opened Wrappers
  import opened AuthContext

  /** The three things the gate can render. */
  datatype GateView = Spinner | LoginPage | Children

  /** `Auth`'s decision over the context value. */
  function Gate(v: AuthValue): (g: GateView)
    ensures g.Spinner? <==> v.isLoading
    ensures g.LoginPage? <==> !v.isLoading && v.session.None?
    ensures g.Children? <==> !v.isLoading && v.session.Some?
  {
    if v.isLoading then Spinner
    else if v.session.None? then LoginPage
    else Children
  }

  /** `Auth` as rendered: `useAuth()` first, which throws outside a provider. */
  function RenderAuth(context: Option<AuthValue>): (r: Result<GateView>)
    ensures r.Err? <==> context.None?
    ensures context.Some? ==> r == Ok(Gate(context.value))
  {
    match UseAuth(context)
    case Err(e) => Err(e)
    case Ok(v) => Ok(Gate(v))
  }

  /**
   * Under the provider, after any events from its initial state, the dashboard is shown
   * only once the session check has arrived and there is a session, and then there is a
   * signed-in user to display.
   */
  lemma {:induction false} DashboardNeedsSession(events: seq<AuthEvent>)
    ensures var v := Run(AuthContext.Initial, events).value;
      RenderAuth(Some(v)) == Ok(Children) ==>
        && v.session.Some? && v.user == Some(v.session.value.user)
        && SessionCheckIn(events)
  {
    var v := Run(AuthContext.Initial, events).value;
    RunConsistent(AuthContext.Initial, events);
    if !v.isLoading {
      LoadingUntilSessionChecked(AuthContext.Initial, events);
    }
  }

  /** On first render the gate shows the spinner. */
  lemma FirstRenderSpins()
    ensures RenderAuth(Some(AuthContext.Initial.value)) == Ok(Spinner)
  {
  }
}
