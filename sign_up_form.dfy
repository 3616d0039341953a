/** The sign-up form (src/components/SignUp.tsx): three ordered checks,
    then the account-creation call with the loading/error protocol. */
module SignUpForm {
  import opened Js

  // Each form writes its own literals and its own call arguments, so this
  // module keeps its own copies rather than sharing the sign-in form's.
  const MinPasswordLength := 6
  const FillAllError := "Please fill in all fields"
  const MismatchError := "Passwords do not match"
  const TooShortError := "Password must be at least 6 characters"
  const SignUpFailedFallback := "Failed to create account"
  const HomeRoute := "/"

  /** The arguments of the `signUp` call. */
  datatype Credentials = Credentials(email: string, password: string)

  /** The ordered checks of `handleSignUp`: empty fields, then mismatch,
      then length (counted in UTF-16 code units, as `password.length`
      does). `None` means every check passed. */
  function SignUpProblem(email: string, password: string, confirmPassword: string): (r: Option<string>)
    ensures r.None? <==>
              email != "" && password != "" && password == confirmPassword
              && Utf16Length(password) >= MinPasswordLength
    ensures email == "" || password == "" ==> r == Some(FillAllError)
    ensures email != "" && password != "" && password != confirmPassword ==> r == Some(MismatchError)
    ensures r == Some(TooShortError) <==>
              email != "" && password != "" && password == confirmPassword
              && Utf16Length(password) < MinPasswordLength
  {
    if email == "" || password == "" then Some(FillAllError)
    else if password != confirmPassword then Some(MismatchError)
    else if Utf16Length(password) < MinPasswordLength then Some(TooShortError)
    else None
  }

  /** A short password that also differs from its confirmation reports the
      mismatch, not the length: the mismatch check comes first. */
  lemma ShortMismatchReportsMismatch()
    ensures SignUpProblem("a@b.c", "abc", "abd") == Some(MismatchError)
  {
  }

  /** The length check counts code units: three characters outside the
      Basic Multilingual Plane make a long enough password, and so does no
      string of fewer than three characters. */
  lemma {:induction false} LengthCountsCodeUnits(email: string, password: string)
    requires email != ""
    ensures SignUpProblem(email, "😀😀😀", "😀😀😀").None?
    ensures SignUpProblem(email, password, password).None? ==> |password| >= 3
  {
    var p := "😀😀😀";
    assert Utf16Length(p[2..]) == 2;
    assert Utf16Length(p[1..]) == 4;
  }

  datatype SignUpState = SignUpState(
    email: string, password: string, confirmPassword: string, error: string, loading: bool)

  const InitialState := SignUpState("", "", "", "", false)

  /** `handleSignUp` up to its `await`: the error is cleared, a failed
      check sets it and stops; otherwise loading is set and `signUp` is
      called with the fields as they stand. */
  function SignUpStarted(s: SignUpState): (r: (SignUpState, Option<Credentials>))
    ensures r.0.email == s.email && r.0.password == s.password
              && r.0.confirmPassword == s.confirmPassword
    ensures r.1.Some? <==> SignUpProblem(s.email, s.password, s.confirmPassword).None?
    ensures r.1.Some? ==>
              r.1.value == Credentials(s.email, s.password) && r.0.loading && r.0.error == ""
    ensures r.1.None? ==>
              r.0.loading == s.loading
              && r.0.error == SignUpProblem(s.email, s.password, s.confirmPassword).value
  {
    var cleared := s.(error := "");
    match SignUpProblem(s.email, s.password, s.confirmPassword)
    case Some(problem) => (cleared.(error := problem), None)
    case None => (cleared.(loading := true), Some(Credentials(s.email, s.password)))
  }

  /** `handleSignUp` after `signUp` settles: success navigates home,
      failure reports the error's message or the fallback; the `finally`
      block clears loading either way. */
  function SignUpSettled(s: SignUpState, o: Settlement): (r: (SignUpState, Option<string>))
    ensures !r.0.loading
    ensures r.0.email == s.email && r.0.password == s.password
              && r.0.confirmPassword == s.confirmPassword
    ensures o.Resolved? <==> r.1 == Some(HomeRoute)
    ensures o.Resolved? ==> r.0.error == s.error
    ensures o.Rejected? ==> r.1.None? && r.0.error == Or(o.message, SignUpFailedFallback) && r.0.error != ""
  {
    match o
    case Resolved => (s.(loading := false), Some(HomeRoute))
    case Rejected(message) => (s.(error := Or(message, SignUpFailedFallback), loading := false), None)
  }

  /** From a form that is not loading: loading is on exactly while a
      `signUp` call is outstanding, and off once it settles. A failed check
      never turns it on. */
  lemma LoadingOnlyAroundCall(s: SignUpState, o: Settlement)
    requires !s.loading
    ensures var (s1, call) := SignUpStarted(s);
      && (s1.loading <==> call.Some?)
      && (call.Some? ==> !SignUpSettled(s1, o).0.loading)
  {
  }

  /** The form's state cells. */
  class SignUp {
    var email: string
    var password: string
    var confirmPassword: string
    var error: string
    var loading: bool

    function State(): SignUpState
      reads this
    {
      SignUpState(email, password, confirmPassword, error, loading)
    }

    constructor ()
      ensures State() == InitialState
    {
      email, password, confirmPassword := "", "", "";
      error := "";
      loading := false;
    }

    method SetEmail(value: string)
      modifies this
      ensures State() == old(State()).(email := value)
    {
      email := value;
    }

    method SetPassword(value: string)
      modifies this
      ensures State() == old(State()).(password := value)
    {
      password := value;
    }

    method SetConfirmPassword(value: string)
      modifies this
      ensures State() == old(State()).(confirmPassword := value)
    {
      confirmPassword := value;
    }

    /** `handleSignUp` up to its `await`; returns the `signUp` call made, if any. */
    method StartSignUp() returns (call: Option<Credentials>)
      modifies this
      ensures (State(), call) == SignUpStarted(old(State()))
    {
      error := "";
      if email == "" || password == "" {
        error := FillAllError;
        return None;
      }
      if password != confirmPassword {
        error := MismatchError;
        return None;
      }
      if Utf16Length(password) < MinPasswordLength {
        error := TooShortError;
        return None;
      }
      loading := true;
      call := Some(Credentials(email, password));
    }

    /** `handleSignUp` after `signUp` settles with `o`; returns where it
      navigates, if anywhere. */
    method FinishSignUp(o: Settlement) returns (navigateTo: Option<string>)
      modifies this
      ensures (State(), navigateTo) == SignUpSettled(old(State()), o)
    {
      navigateTo := None;
      match o {
        case Resolved =>
          navigateTo := Some(HomeRoute);
        case Rejected(message) =>
          error := Or(message, SignUpFailedFallback);
      }
      loading := false;
    }
  }
}
