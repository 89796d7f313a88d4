/** The client's `auth` state slice: the signed-in user and the flags that
    say which authentication request is in flight. */
module AuthSlice {
  import opened Wrappers

  /** A user profile as a record of named string properties. */
  type Profile = map<string, string>

  /** `{ ...current, ...payload }`: spreading `null` contributes nothing,
      and a property of the payload overrides the one already held. */
  function MergeProfile(current: Option<Profile>, payload: Profile): (r: Profile)
    ensures r.Keys == current.GetOr(map[]).Keys + payload.Keys
    ensures forall k :: k in payload ==> r[k] == payload[k]
    ensures forall k :: current.Some? && k in current.value && k !in payload ==> r[k] == current.value[k]
  {
    current.GetOr(map[]) + payload
  }

  /** Merging the same update twice is merging it once. */
  lemma MergeProfileIdempotent(current: Option<Profile>, payload: Profile)
    ensures MergeProfile(Some(MergeProfile(current, payload)), payload) == MergeProfile(current, payload)
  {
  }

  /** The asynchronous requests whose life cycle the slice follows. */
  datatype Request = CheckAuth | Signup | Login | Logout | UpdateProfile

  /** A request's lifecycle action; a fulfilled one carries its payload
      (`null` or a profile). */
  datatype Outcome = Pending | Fulfilled(payload: Option<Profile>) | Rejected

  datatype AuthEvent = AuthEvent(request: Request, outcome: Outcome)

  datatype AuthView = AuthView(
    authUser: Option<Profile>,
    isSigningUp: bool,
    isLoggingIn: bool,
    isUpdatingProfile: bool,
    isCheckingAuth: bool)

  /** Before anything happens the app is checking whether a session exists. */
  const Initial: AuthView := AuthView(None, false, false, false, true)

  /** The extra reducers: what each lifecycle action does to the slice.
      Logout has no pending case, and its rejection changes nothing. */
  function Step(v: AuthView, e: AuthEvent): AuthView {
    match e.request
    case CheckAuth =>
      (match e.outcome
       case Pending => v.(isCheckingAuth := true)
       case Fulfilled(p) => v.(authUser := p, isCheckingAuth := false)
       case Rejected => v.(authUser := None, isCheckingAuth := false))
    case Signup =>
      (match e.outcome
       case Pending => v.(isSigningUp := true)
       case Fulfilled(p) => v.(isSigningUp := false, authUser := p)
       case Rejected => v.(isSigningUp := false))
    case Login =>
      (match e.outcome
       case Pending => v.(isLoggingIn := true)
       case Fulfilled(p) => v.(isLoggingIn := false, authUser := p)
       case Rejected => v.(isLoggingIn := false))
    case Logout =>
      (match e.outcome
       case Fulfilled(_) => v.(authUser := None)
       case _ => v)
    case UpdateProfile =>
      (match e.outcome
       case Pending => v.(isUpdatingProfile := true)
       case Fulfilled(p) => v.(isUpdatingProfile := false,
                               authUser := Some(MergeProfile(v.authUser, p.GetOr(map[]))))
       case Rejected => v.(isUpdatingProfile := false))
  }

  function Replay(events: seq<AuthEvent>): AuthView {
    if |events| == 0 then Initial
    else Step(Replay(events[..|events| - 1]), events[|events| - 1])
  }

  /** The in-flight flag of a request; logging out has none. */
  function InFlight(v: AuthView, r: Request): bool
    requires r != Logout
  {
    match r
    case CheckAuth => v.isCheckingAuth
    case Signup => v.isSigningUp
    case Login => v.isLoggingIn
    case UpdateProfile => v.isUpdatingProfile
  }

  /** Whether the latest lifecycle action of request `r` is its pending
      one; with none yet, only the session check counts as in flight. */
  function LastIsPending(events: seq<AuthEvent>, r: Request): bool {
    if |events| == 0 then r == CheckAuth
    else if events[|events| - 1].request == r then events[|events| - 1].outcome.Pending?
    else LastIsPending(events[..|events| - 1], r)
  }

  /** Each flag is set exactly while its request's latest action is the
      pending one: no fulfilment or rejection leaves a spinner on, and the
      actions of one request never touch another request's flag. */
  lemma {:induction false} InFlightTracksLastAction(events: seq<AuthEvent>, r: Request)
    requires r != Logout
    ensures InFlight(Replay(events), r) == LastIsPending(events, r)
  {
    if |events| > 0 {
      InFlightTracksLastAction(events[..|events| - 1], r);
    }
  }

  /** A successful logout always leaves nobody signed in, whatever came
      before. */
  lemma LogoutSignsOut(events: seq<AuthEvent>, payload: Option<Profile>)
    ensures Replay(events + [AuthEvent(Logout, Fulfilled(payload))]).authUser.None?
  {
    var all := events + [AuthEvent(Logout, Fulfilled(payload))];
    assert all[..|all| - 1] == events;
  }

  class AuthState {
    var authUser: Option<Profile>
    var isSigningUp: bool
    var isLoggingIn: bool
    var isUpdatingProfile: bool
    var isCheckingAuth: bool

    function View(): AuthView
      reads this
    {
      AuthView(authUser, isSigningUp, isLoggingIn, isUpdatingProfile, isCheckingAuth)
    }

    constructor ()
      ensures View() == Initial
    {
      authUser := None;
      isSigningUp, isLoggingIn, isUpdatingProfile, isCheckingAuth := false, false, false, true;
    }

    method SetAuthUser(user: Option<Profile>)
      modifies this`authUser
      ensures authUser == user
    {
      authUser := user;
    }

    method SetSigningUp(flag: bool)
      modifies this`isSigningUp
      ensures isSigningUp == flag
    {
      isSigningUp := flag;
    }

    method SetLoggingIn(flag: bool)
      modifies this`isLoggingIn
      ensures isLoggingIn == flag
    {
      isLoggingIn := flag;
    }

    method SetUpdatingProfile(flag: bool)
      modifies this`isUpdatingProfile
      ensures isUpdatingProfile == flag
    {
      isUpdatingProfile := flag;
    }

    /** Runs the extra reducer of one lifecycle action. */
    method Dispatch(e: AuthEvent)
      modifies this
      ensures View() == Step(old(View()), e)
    {
      match e.request
      case CheckAuth =>
        match e.outcome {
          case Pending => isCheckingAuth := true;
          case Fulfilled(p) => authUser := p; isCheckingAuth := false;
          case Rejected => authUser := None; isCheckingAuth := false;
        }
      case Signup =>
        match e.outcome {
          case Pending => isSigningUp := true;
          case Fulfilled(p) => isSigningUp := false; authUser := p;
          case Rejected => isSigningUp := false;
        }
      case Login =>
        match e.outcome {
          case Pending => isLoggingIn := true;
          case Fulfilled(p) => isLoggingIn := false; authUser := p;
          case Rejected => isLoggingIn := false;
        }
      case Logout =>
        if e.outcome.Fulfilled? {
          authUser := None;
        }
      case UpdateProfile =>
        match e.outcome {
          case Pending => isUpdatingProfile := true;
          case Fulfilled(p) =>
            isUpdatingProfile := false;
            authUser := Some(MergeProfile(authUser, p.GetOr(map[])));
          case Rejected => isUpdatingProfile := false;
        }
    }
  }
}
