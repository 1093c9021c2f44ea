/** The client's auth reducer: a state machine over `{ token, isAuhtenticated, loading, user }`
    whose local-storage writes are returned as the `stored` component of each step. */
module AuthReducer {
  import opened Common

  /** The auth slice of the client state; `None` is `null`. The misspelt key `isAuhtenticated`
      is the one the client uses. `user` is kept opaque. */
  datatype AuthState = AuthState(
    token: Option<string>,
    isAuhtenticated: Option<bool>,
    loading: bool,
    user: Option<string>)

  /** A key of the action payload: absent, or present with a value. */
  datatype Key<T> = Absent | Has(value: T)

  /** The REGISTER_SUCCESS payload, as far as it touches the auth slice's keys. */
  datatype Payload = Payload(token: Key<Option<string>>, user: Key<Option<string>>)

  datatype Action = RegisterSuccess(payload: Payload) | RegisterFail | Other(kind: string)

  /** A reducer step: the new state and what local storage holds under `token` afterwards. */
  datatype Step = Step(state: AuthState, stored: Option<string>)

  /** `initialState`: the token is whatever local storage holds at load time. */
  function InitialState(stored: Option<string>): (s: AuthState)
    ensures s.token == stored && s.isAuhtenticated.None? && s.loading && s.user.None?
  {
    AuthState(stored, None, true, None)
  }

  /** What `localStorage.setItem` keeps: the value converted to a string, so a missing token is
      stored as "undefined" and a null one as "null". */
  function StorageString(v: Key<Option<string>>): (r: string)
    ensures v.Has? && v.value.Some? ==> r == v.value.value
    ensures v.Absent? ==> r == "undefined"
    ensures v == Has(None) ==> r == "null"
  {
    match v
    case Absent => "undefined"
    case Has(None) => "null"
    case Has(Some(t)) => t
  }

  /** `{ ...state, ...payload }` on the keys the state has. */
  function Spread(state: AuthState, payload: Payload): (s: AuthState)
    ensures payload.token.Has? ==> s.token == payload.token.value
    ensures payload.token.Absent? ==> s.token == state.token
    ensures payload.user.Has? ==> s.user == payload.user.value
    ensures payload.user.Absent? ==> s.user == state.user
    ensures s.isAuhtenticated == state.isAuhtenticated && s.loading == state.loading
  {
    state.(token := if payload.token.Has? then payload.token.value else state.token,
           user := if payload.user.Has? then payload.user.value else state.user)
  }

  /** The reducer. */
  function Reduce(state: AuthState, stored: Option<string>, action: Action): (r: Step)
    ensures action.RegisterSuccess? ==>
              && r.state.isAuhtenticated == Some(true) && !r.state.loading
              && r.state.token == (if action.payload.token.Has? then action.payload.token.value else state.token)
              && r.state.user == (if action.payload.user.Has? then action.payload.user.value else state.user)
              && r.stored == Some(StorageString(action.payload.token))
    ensures action.RegisterFail? ==>
              && r.state.token.None? && r.state.isAuhtenticated == Some(false) && !r.state.loading
              && r.state.user == state.user
              && r.stored.None?
    ensures action.Other? ==> r.state == state && r.stored == stored
  {
    match action
    case RegisterSuccess(payload) =>
      Step(Spread(state, payload).(isAuhtenticated := Some(true), loading := false),
           Some(StorageString(payload.token)))
    case RegisterFail =>
      Step(state.(token := None, isAuhtenticated := Some(false), loading := false), None)
    case Other(_) =>
      Step(state, stored)
  }

  /** REGISTER_FAIL twice is REGISTER_FAIL once. */
  lemma RegisterFailIdempotent(state: AuthState, stored: Option<string>)
    ensures var once := Reduce(state, stored, RegisterFail);
            Reduce(once.state, once.stored, RegisterFail) == once
  {
  }

  /** After a REGISTER_SUCCESS carrying a token, the state's token and the stored token agree. */
  lemma RegisterSuccessStoresStateToken(state: AuthState, stored: Option<string>, payload: Payload, t: string)
    requires payload.token == Has(Some(t))
    ensures var r := Reduce(state, stored, RegisterSuccess(payload));
            r.state.token == Some(t) && r.stored == Some(t)
  {
  }

  /** A REGISTER_SUCCESS whose payload has no token (or a null one) still leaves a string in
      storage, so the next load starts with a token, "undefined" or "null". */
  lemma MissingTokenSurvivesReload(state: AuthState, stored: Option<string>, payload: Payload)
    requires payload.token.Absent? || payload.token == Has(None)
    ensures var r := Reduce(state, stored, RegisterSuccess(payload));
            r.stored.Some? && InitialState(r.stored).token.Some?
            && InitialState(r.stored).token.value in {"undefined", "null"}
  {
  }
}
