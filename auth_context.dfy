/**
 * The session provider: `{session, user, isLoading}`, set by the initial session check and
 * by auth-change notifications, with a subscription that the effect's cleanup releases.
 * The authentication SDK is outside the model: what it reports arrives as event arguments.
 */
module AuthContext {
  import opened Wrappers

  /** The signed-in identity; only its email is displayed. */
  datatype User = User(id: string, email: string)

  /** An SDK session: an opaque token and the user it belongs to. */
  datatype Session = Session(accessToken: string, user: User)

  /** The context value the provider exposes. */
  datatype AuthValue = AuthValue(session: Option<Session>, user: Option<User>, isLoading: bool)

  /**
   * The provider's effect: not yet run, running with the auth-change listener subscribed,
   * or cleaned up with the listener released.
   */
  datatype Lifecycle = NotMounted | Subscribed | Released

  /** The position of a lifecycle stage in mount order. */
  function Stage(l: Lifecycle): nat
  {
    match l
    case NotMounted => 0
    case Subscribed => 1
    case Released => 2
  }

  datatype ProviderState = ProviderState(value: AuthValue, lifecycle: Lifecycle)

  /** What reaches the provider. */
  datatype AuthEvent =
    | EffectRun                              // the mount effect runs
    | SessionChecked(session: Option<Session>)   // `getSession()` resolves
    | AuthStateChanged(session: Option<Session>) // the listener is notified
    | Cleanup                                // the effect's cleanup runs

  /** `session?.user ?? null`: a user exactly when there is a session, and then the session's. */
  function UserOf(session: Option<Session>): (user: Option<User>)
    ensures user.Some? <==> session.Some?
    ensures session.Some? ==> user.value == session.value.user
  {
    match session
    case Some(s) => Some(s.user)
    case None => None
  }

  /** The user is the session's user, or none without a session. */
  predicate Consistent(v: AuthValue)
  {
    v.user == UserOf(v.session)
  }

  /** The state on first render: no session, no user, loading. */
  const Initial: ProviderState := ProviderState(AuthValue(None, None, true), NotMounted)

  /**
   * One event. The effect runs once (its dependency list is empty): it sets `isLoading`
   * and subscribes. While subscribed, the session check sets session, user and clears
   * `isLoading`; a notification sets session and user only. Cleanup unsubscribes; updates
   * reaching an unmounted provider are discarded.
   */
  function Step(st: ProviderState, ev: AuthEvent): (st': ProviderState)
    ensures Stage(st.lifecycle) <= Stage(st'.lifecycle)
    ensures st.lifecycle == Released ==> st' == st
    ensures ev.AuthStateChanged? ==> st'.value.isLoading == st.value.isLoading
    ensures st'.value.isLoading != st.value.isLoading ==> ev.SessionChecked? || ev.EffectRun?
  {
    match ev
    case EffectRun =>
      if st.lifecycle == NotMounted then ProviderState(st.value.(isLoading := true), Subscribed) else st
    case SessionChecked(s) =>
      if st.lifecycle == Subscribed then st.(value := AuthValue(s, UserOf(s), false)) else st
    case AuthStateChanged(s) =>
      if st.lifecycle == Subscribed then st.(value := st.value.(session := s, user := UserOf(s))) else st
    case Cleanup =>
      if st.lifecycle == Subscribed then st.(lifecycle := Released) else st
  }

  /** The events one after the other: the lifecycle only moves forward, never back to mounting. */
  function Run(st: ProviderState, events: seq<AuthEvent>): (st': ProviderState)
    ensures Stage(st.lifecycle) <= Stage(st'.lifecycle)
    decreases |events|
  {
    if events == [] then st else Run(Step(st, events[0]), events[1..])
  }

  /** What one event does to the exposed value. */
  lemma StepEffect(st: ProviderState, ev: AuthEvent)
    ensures var st' := Step(st, ev);
      && (ev.SessionChecked? && st.lifecycle == Subscribed ==>
            st'.value == AuthValue(ev.session, UserOf(ev.session), false))
      && (ev.AuthStateChanged? && st.lifecycle == Subscribed ==>
            st'.value.session == ev.session && st'.value.user == UserOf(ev.session))
      && (ev.AuthStateChanged? ==> st'.value.isLoading == st.value.isLoading)
      && (ev.Cleanup? ==> st'.value == st.value && st'.lifecycle != Subscribed)
  {
  }

  /** Every event keeps the user in step with the session. */
  lemma StepConsistent(st: ProviderState, ev: AuthEvent)
    requires Consistent(st.value)
    ensures Consistent(Step(st, ev).value)
  {
  }

  /** From the initial state, after any events, the user is the session's user. */
  lemma {:induction false} RunConsistent(st: ProviderState, events: seq<AuthEvent>)
    requires Consistent(st.value)
    ensures Consistent(Run(st, events).value)
    decreases |events|
  {
    if events != [] {
      StepConsistent(st, events[0]);
      RunConsistent(Step(st, events[0]), events[1..]);
    }
  }

  /** Auth-change notifications alone never change `isLoading`. */
  lemma {:induction false} NotificationsKeepLoading(st: ProviderState, events: seq<AuthEvent>)
    requires forall k :: 0 <= k < |events| ==> events[k].AuthStateChanged?
    ensures Run(st, events).value.isLoading == st.value.isLoading
    decreases |events|
  {
    if events != [] {
      NotificationsKeepLoading(Step(st, events[0]), events[1..]);
    }
  }

  /** After cleanup the listener is released: no later event changes anything. */
  lemma {:induction false} ReleasedIsFinal(st: ProviderState, events: seq<AuthEvent>)
    requires st.lifecycle == Released
    ensures Run(st, events) == st
    decreases |events|
  {
    if events != [] {
      assert Step(st, events[0]) == st;
      ReleasedIsFinal(st, events[1..]);
    }
  }

  /** Cleanup freezes the exposed value for whatever events follow. */
  lemma CleanupFreezesValue(st: ProviderState, events: seq<AuthEvent>)
    requires st.lifecycle == Subscribed
    ensures Run(Step(st, Cleanup), events).value == st.value
  {
    ReleasedIsFinal(Step(st, Cleanup), events);
  }

  /** Some event of the sequence is a session check. */
  predicate SessionCheckIn(events: seq<AuthEvent>)
  {
    exists k :: 0 <= k < |events| && events[k].SessionChecked?
  }

  /** Loading ends only through the session check: while none arrived, `isLoading` holds. */
  lemma {:induction false} LoadingUntilSessionChecked(st: ProviderState, events: seq<AuthEvent>)
    requires st.value.isLoading
    requires !Run(st, events).value.isLoading
    ensures SessionCheckIn(events)
    decreases |events|
  {
    assert events != [];
    if Step(st, events[0]).value.isLoading {
      LoadingUntilSessionChecked(Step(st, events[0]), events[1..]);
      var k :| 0 <= k < |events[1..]| && events[1..][k].SessionChecked?;
      assert events[k + 1].SessionChecked?;
    } else {
      assert events[0].SessionChecked?;
    }
  }

  /**
   * The invariant every run from `Initial` keeps (`RunReachable`): the user is the session's,
   * and before the effect runs the provider is still loading.
   */
  predicate Reachable(st: ProviderState)
  {
    Consistent(st.value) && (st.lifecycle == NotMounted ==> st.value.isLoading)
  }

  /** The invariant holds after any events, in particular from the initial state. */
  lemma {:induction false} RunReachable(st: ProviderState, events: seq<AuthEvent>)
    requires Reachable(st)
    ensures Reachable(Run(st, events))
    decreases |events|
  {
    if events != [] {
      RunReachable(Step(st, events[0]), events[1..]);
    }
  }

  /** Once loading has finished it never starts again. */
  lemma {:induction false} LoadingNeverReturns(st: ProviderState, events: seq<AuthEvent>)
    requires Reachable(st) && !st.value.isLoading
    ensures Reachable(Run(st, events)) && !Run(st, events).value.isLoading
    decreases |events|
  {
    if events != [] {
      LoadingNeverReturns(Step(st, events[0]), events[1..]);
    }
  }

  /** `useAuth()`: the provider's value, or the error thrown outside a provider. */
  function UseAuth(context: Option<AuthValue>): (r: Result<AuthValue>)
    ensures r.Err? <==> context.None?
    ensures context.Some? ==> r == Ok(context.value)
  {
    match context
    case None => Err("useAuth must be used within an AuthProvider")
    case Some(v) => Ok(v)
  }

  /** The `AuthProvider` component's state hooks and its effect's subscription. */
  class AuthProvider {
    var session: Option<Session>
    var user: Option<User>
    var isLoading: bool
    var lifecycle: Lifecycle

    function State(): ProviderState
      reads this
    {
      ProviderState(AuthValue(session, user, isLoading), lifecycle)
    }

    predicate Valid()
      reads this
    {
      Reachable(State())
    }

    constructor ()
      ensures State() == Initial && Valid()
    {
      session := None;
      user := None;
      isLoading := true;
      lifecycle := NotMounted;
    }

    /** The mount effect: `setIsLoading(true)`, start the session check, subscribe. */
    method RunEffect()
      requires Valid()
      modifies this
      ensures State() == Step(old(State()), EffectRun) && Valid()
    {
      if lifecycle == NotMounted {
        isLoading := true;
        lifecycle := Subscribed;
      }
    }

    /** The `getSession()` callback. */
    method OnSessionChecked(s: Option<Session>)
      requires Valid()
      modifies this
      ensures State() == Step(old(State()), SessionChecked(s)) && Valid()
    {
      if lifecycle == Subscribed {
        session := s;
        user := UserOf(s);
        isLoading := false;
      }
    }

    /** The `onAuthStateChange` listener. */
    method OnAuthStateChange(s: Option<Session>)
      requires Valid()
      modifies this
      ensures State() == Step(old(State()), AuthStateChanged(s)) && Valid()
    {
      if lifecycle == Subscribed {
        session := s;
        user := UserOf(s);
      }
    }

    /** The effect's cleanup: `subscription?.unsubscribe()`. */
    method Unsubscribe()
      requires Valid()
      modifies this
      ensures State() == Step(old(State()), Cleanup) && Valid()
    {
      if lifecycle == Subscribed {
        lifecycle := Released;
      }
    }
  }
}
