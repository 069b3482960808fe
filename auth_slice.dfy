/** The `auth` slice: two independent flags. */
module AuthSlice {

  datatype AuthState = AuthState(isAuthenticated: bool, biometricsEnabled: bool)

  const InitialState := AuthState(false, false)

  datatype AuthAction = SetAuthenticated(value: bool) | SetBiometricsEnabled(value: bool)

  function Reduce(s: AuthState, a: AuthAction): AuthState
  {
    match a
    case SetAuthenticated(b) => s.(isAuthenticated := b)
    case SetBiometricsEnabled(b) => s.(biometricsEnabled := b)
  }

  class AuthStore {
    var isAuthenticated: bool
    var biometricsEnabled: bool

    function State(): AuthState
      reads this
    {
      AuthState(isAuthenticated, biometricsEnabled)
    }

    constructor ()
      ensures State() == InitialState
    {
      isAuthenticated, biometricsEnabled := false, false;
    }

    method Dispatch(a: AuthAction)
      modifies this
      ensures State() == Reduce(old(State()), a)
    {
      match a {
        case SetAuthenticated(b) => isAuthenticated := b;
        case SetBiometricsEnabled(b) => biometricsEnabled := b;
      }
    }
  }

  /** Each setter sets its own flag to the payload and leaves the other;
      so the two setters commute, and applying one twice is applying it once. */
  lemma SettersAreIndependent(s: AuthState, a: bool, b: bool)
    ensures Reduce(s, SetAuthenticated(a)).isAuthenticated == a
    ensures Reduce(s, SetAuthenticated(a)).biometricsEnabled == s.biometricsEnabled
    ensures Reduce(s, SetBiometricsEnabled(b)).biometricsEnabled == b
    ensures Reduce(s, SetBiometricsEnabled(b)).isAuthenticated == s.isAuthenticated
    ensures Reduce(Reduce(s, SetAuthenticated(a)), SetBiometricsEnabled(b)) ==
            Reduce(Reduce(s, SetBiometricsEnabled(b)), SetAuthenticated(a))
  {
  }

  lemma SettersIdempotent(s: AuthState, act: AuthAction)
    ensures Reduce(Reduce(s, act), act) == Reduce(s, act)
  {
  }

  /** The app starts signed out with biometrics off. */
  lemma StartsSignedOut()
    ensures !InitialState.isAuthenticated && !InitialState.biometricsEnabled
  {
  }
}
