/**
  The authentication reducer (store/reducers/authReducer.js): a two-state machine over
  `{user, isAuthenticated}` driven by login and logout actions. The action creators live in
  store/actions/authActions.js, which is not part of this model; the actions are therefore
  given as a datatype whose variants are the reducer's cases.
*/
module AuthReducer {
  import opened Wrappers
  import opened JsObject

  /** The user record a successful login stores: the server's user data plus the token. */
  type User = Entries<string>

  datatype AuthState = AuthState(user: Option<User>, isAuthenticated: bool)

  /** `LOGIN_SUCCESS` with its payload (`None` for a null or missing payload), `LOGOUT`, or an
      action of another reducer. */
  datatype AuthAction =
    | LoginSuccess(payload: Option<User>)
    | Logout
    | OtherAction(actionType: string)

  /** `initialState`: nobody is logged in. */
  const InitialState := AuthState(None, false)

  /** `authReducer(state, action)` */
  function Reduce(s: AuthState, a: AuthAction): AuthState {
    match a
    case LoginSuccess(p) => s.(user := p, isAuthenticated := true)
    case Logout => s.(user := None, isAuthenticated := false)
    case OtherAction(_) => s
  }

  /** The flag says whether a user is stored. */
  predicate Inv(s: AuthState) {
    s.isAuthenticated <==> s.user.Some?
  }

  /** A login stores exactly the payload and raises the flag, whatever the state before. */
  lemma LoginStoresPayload(s: AuthState, p: Option<User>)
    ensures Reduce(s, LoginSuccess(p)).user == p
    ensures Reduce(s, LoginSuccess(p)).isAuthenticated
  {
  }

  /** A logout returns to the initial state from any state, so a second logout changes nothing. */
  lemma LogoutResets(s: AuthState)
    ensures Reduce(s, Logout) == InitialState
    ensures Reduce(Reduce(s, Logout), Logout) == Reduce(s, Logout)
  {
  }

  /** Any other action leaves the state as it was. */
  lemma OtherActionUnchanged(s: AuthState, t: string)
    ensures Reduce(s, OtherAction(t)) == s
  {
  }

  /** A login payload that is present. */
  predicate NonNullLogin(a: AuthAction) {
    a.LoginSuccess? ==> a.payload.Some?
  }

  /** The invariant holds initially and survives every action whose login payload is non-null. */
  lemma ReducePreservesInv(s: AuthState, a: AuthAction)
    requires Inv(s) && NonNullLogin(a)
    ensures Inv(Reduce(s, a)) && Inv(InitialState)
  {
  }

  /** A null login payload breaks it: the flag is up with no user stored. */
  lemma NullLoginBreaksInv()
    ensures !Inv(Reduce(InitialState, LoginSuccess(None)))
  {
  }

  /** The store applying a sequence of actions in order. */
  function ReduceAll(s: AuthState, acts: seq<AuthAction>): AuthState
    decreases |acts|
  {
    if acts == [] then s else ReduceAll(Reduce(s, acts[0]), acts[1..])
  }

  /** From the initial state, every run whose logins carry a user keeps the invariant. */
  lemma {:induction false} RunKeepsInv(s: AuthState, acts: seq<AuthAction>)
    requires Inv(s)
    requires forall i :: 0 <= i < |acts| ==> NonNullLogin(acts[i])
    ensures Inv(ReduceAll(s, acts))
    decreases |acts|
  {
    if acts != [] {
      ReducePreservesInv(s, acts[0]);
      RunKeepsInv(Reduce(s, acts[0]), acts[1..]);
    }
  }

  /** The flag after a run is decided by its last login or logout; with none, nothing changed. */
  lemma {:induction false} LastAuthActionDecides(s: AuthState, acts: seq<AuthAction>)
    ensures var r := ReduceAll(s, acts);
            && ((forall i :: 0 <= i < |acts| ==> acts[i].OtherAction?) ==> r == s)
            && (acts != [] && acts[|acts| - 1].Logout? ==> r == InitialState)
            && (acts != [] && acts[|acts| - 1].LoginSuccess? ==>
                  r.isAuthenticated && r.user == acts[|acts| - 1].payload)
    decreases |acts|
  {
    if acts != [] {
      LastAuthActionDecides(Reduce(s, acts[0]), acts[1..]);
      assert forall i :: 1 <= i < |acts| ==> acts[1..][i - 1] == acts[i];
    }
  }
}
