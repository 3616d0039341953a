/** The sign-in form (src/components/SignIn.tsx): the empty-field check,
    then the sign-in call with the loading/error protocol. */
module SignInForm {
  import opened Js

  // Each form writes its own literals and its own call arguments, so this
  // module keeps its own copies rather than sharing the sign-up form's.
  const FillAllError := "Please fill in all fields"
  const SignInFailedFallback := "Failed to sign in"
  const HomeRoute := "/"

  /** The arguments of the `signIn` call. */
  datatype Credentials = Credentials(email: string, password: string)

  datatype SignInState = SignInState(email: string, password: string, error: string, loading: bool)

  const InitialState := SignInState("", "", "", false)

  /** `handleSignIn` up to its `await`: the error is cleared; an empty
      field sets it and stops; otherwise loading is set and `signIn` is
      called with the fields as they stand. */
  function SignInStarted(s: SignInState): (r: (SignInState, Option<Credentials>))
    ensures r.0.email == s.email && r.0.password == s.password
    ensures r.1.Some? <==> s.email != "" && s.password != ""
    ensures r.1.Some? ==>
              r.1.value == Credentials(s.email, s.password) && r.0.loading && r.0.error == ""
    ensures r.1.None? ==> r.0.loading == s.loading && r.0.error == FillAllError
  {
    var cleared := s.(error := "");
    if s.email == "" || s.password == "" then (cleared.(error := FillAllError), None)
    else (cleared.(loading := true), Some(Credentials(s.email, s.password)))
  }

  /** `handleSignIn` after `signIn` settles: success navigates home,
      failure reports the error's message or the fallback; the `finally`
      block clears loading either way. */
  function SignInSettled(s: SignInState, o: Settlement): (r: (SignInState, Option<string>))
    ensures !r.0.loading
    ensures r.0.email == s.email && r.0.password == s.password
    ensures o.Resolved? <==> r.1 == Some(HomeRoute)
    ensures o.Resolved? ==> r.0.error == s.error
    ensures o.Rejected? ==> r.1.None? && r.0.error == Or(o.message, SignInFailedFallback) && r.0.error != ""
  {
    match o
    case Resolved => (s.(loading := false), Some(HomeRoute))
    case Rejected(message) => (s.(error := Or(message, SignInFailedFallback), loading := false), None)
  }

  /** From a form that is not loading: loading is on exactly while a
      `signIn` call is outstanding, and off once it settles, on success and
      on failure alike. */
  lemma LoadingOnlyAroundCall(s: SignInState, o: Settlement)
    requires !s.loading
    ensures var (s1, call) := SignInStarted(s);
      && (s1.loading <==> call.Some?)
      && (call.Some? ==> !SignInSettled(s1, o).0.loading)
  {
  }

  /** The form's state cells. */
  class SignIn {
    var email: string
    var password: string
    var error: string
    var loading: bool

    function State(): SignInState
      reads this
    {
      SignInState(email, password, error, loading)
    }

    constructor ()
      ensures State() == InitialState
    {
      email, password := "", "";
      error := "";
      loading := false;
    }

    method SetEmail(value: string)
      modifies this
      ensures State() == old(State()).(email := value)
    {
      email := value;
    }

    method SetPassword(value: string)
      modifies this
      ensures State() == old(State()).(password := value)
    {
      password := value;
    }

    /** `handleSignIn` up to its `await`; returns the `signIn` call made, if any. */
    method StartSignIn() returns (call: Option<Credentials>)
      modifies this
      ensures (State(), call) == SignInStarted(old(State()))
    {
      error := "";
      if email == "" || password == "" {
        error := FillAllError;
        return None;
      }
      loading := true;
      call := Some(Credentials(email, password));
    }

    /** `handleSignIn` after `signIn` settles with `o`; returns where it
      navigates, if anywhere. */
    method FinishSignIn(o: Settlement) returns (navigateTo: Option<string>)
      modifies this
      ensures (State(), navigateTo) == SignInSettled(old(State()), o)
    {
      navigateTo := None;
      match o {
        case Resolved =>
          navigateTo := Some(HomeRoute);
        case Rejected(message) =>
          error := Or(message, SignInFailedFallback);
      }
      loading := false;
    }
  }
}
