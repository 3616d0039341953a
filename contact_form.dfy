/** The contact page's form (src/pages/Contact.tsx): field edits, the
    required-field and e-mail checks, and the submit status machine
    idle / loading / success / error. */
module ContactForm {
  import opened Js

  datatype Status = Idle | Loading | Success | Error

  datatype Field = Name | Email | Phone | Message | ServiceType

  datatype FormData = FormData(
    name: string, email: string, phone: string, message: string, serviceType: string)

  const InitialForm := FormData("", "", "", "", "general")

  function Get(f: FormData, field: Field): string {
    match field
    case Name => f.name
    case Email => f.email
    case Phone => f.phone
    case Message => f.message
    case ServiceType => f.serviceType
  }

  /** `{ ...prev, [name]: value }`: the named field takes the new value and
      every other field keeps its old one. */
  function With(f: FormData, field: Field, value: string): (r: FormData)
    ensures Get(r, field) == value
    ensures forall other: Field | other != field :: Get(r, other) == Get(f, other)
  {
    match field
    case Name => f.(name := value)
    case Email => f.(email := value)
    case Phone => f.(phone := value)
    case Message => f.(message := value)
    case ServiceType => f.(serviceType := value)
  }

  /** `formData.name && formData.email && formData.message`: no trimming,
      and the phone is optional. */
  predicate RequiredPresent(f: FormData) {
    f.name != "" && f.email != "" && f.message != ""
  }

  /** `[^\s@]+`: a non-empty run with neither whitespace nor '@'. */
  predicate Segment(s: string) {
    |s| > 0 && forall k | 0 <= k < |s| :: !IsWhitespace(s[k]) && s[k] != '@'
  }

  /** `/^[^\s@]+@[^\s@]+\.[^\s@]+$/.test(s)`: some split of `s` around an
      '@' and a later '.' into three such runs. */
  predicate EmailRegexTest(s: string) {
    exists i, j | 0 <= i < j < |s| ::
      s[i] == '@' && s[j] == '.' && Segment(s[..i]) && Segment(s[i + 1..j]) && Segment(s[j + 1..])
  }

  /** A '.' that is neither the first nor the last character. */
  predicate InnerDot(d: string) {
    exists k | 0 < k < |d| - 1 :: d[k] == '.'
  }

  /** The same language in words: no whitespace, exactly one '@', a
      non-empty local part, and a domain with a '.' strictly inside it. */
  predicate WellFormedEmail(s: string) {
    && (forall k | 0 <= k < |s| :: !IsWhitespace(s[k]))
    && exists i | 0 < i < |s| ::
         && s[i] == '@'
         && (forall k | 0 <= k < |s| && k != i :: s[k] != '@')
         && InnerDot(s[i + 1..])
  }

  lemma {:induction false} RegexImpliesWellFormed(s: string, i: int, j: int)
    requires 0 <= i < j < |s|
    requires s[i] == '@' && s[j] == '.'
    requires Segment(s[..i]) && Segment(s[i + 1..j]) && Segment(s[j + 1..])
    ensures WellFormedEmail(s)
  {
    forall k | 0 <= k < |s| && k != i && k != j
      ensures !IsWhitespace(s[k]) && s[k] != '@'
    {
      if k < i {
        assert s[k] == s[..i][k];
      } else if k < j {
        assert s[k] == s[i + 1..j][k - i - 1];
      } else {
        assert s[k] == s[j + 1..][k - j - 1];
      }
    }
    var d := s[i + 1..];
    assert d[j - i - 1] == '.';
    assert InnerDot(d);
  }

  lemma {:induction false} WellFormedImpliesRegex(s: string)
    requires WellFormedEmail(s)
    ensures EmailRegexTest(s)
  {
    var i :| 0 < i < |s| && s[i] == '@' && (forall k | 0 <= k < |s| && k != i :: s[k] != '@')
             && InnerDot(s[i + 1..]);
    var d := s[i + 1..];
    var m :| 0 < m < |d| - 1 && d[m] == '.';
    var j := i + 1 + m;
    assert s[j] == '.';
    var local, host, top := s[..i], s[i + 1..j], s[j + 1..];
    forall k | 0 <= k < |local| ensures !IsWhitespace(local[k]) && local[k] != '@' {
      assert local[k] == s[k];
    }
    forall k | 0 <= k < |host| ensures !IsWhitespace(host[k]) && host[k] != '@' {
      assert host[k] == s[i + 1 + k];
    }
    forall k | 0 <= k < |top| ensures !IsWhitespace(top[k]) && top[k] != '@' {
      assert top[k] == s[j + 1 + k];
    }
    assert Segment(local) && Segment(host) && Segment(top);
  }

  /** The e-mail pattern accepts exactly the well-formed addresses. */
  lemma EmailRegexIff(s: string)
    ensures EmailRegexTest(s) <==> WellFormedEmail(s)
  {
    if EmailRegexTest(s) {
      var i, j :| 0 <= i < j < |s| && s[i] == '@' && s[j] == '.'
                  && Segment(s[..i]) && Segment(s[i + 1..j]) && Segment(s[j + 1..]);
      RegexImpliesWellFormed(s, i, j);
    }
    if WellFormedEmail(s) {
      WellFormedImpliesRegex(s);
    }
  }

  /** `t(key)` from the page's translation catalogue; a key the catalogue
      lacks reads as a falsy value. */
  type Translations = map<string, string>

  function Lookup(t: Translations, key: string): Option<string> {
    if key in t then Some(t[key]) else None
  }

  function RequiredFieldsError(t: Translations): string {
    Or(Lookup(t, "contactFormErrorRequired"), "Please fill in all required fields")
  }

  function EmailError(t: Translations): string {
    Or(Lookup(t, "contactFormErrorEmail"), "Please enter a valid email")
  }

  function SubmitError(t: Translations): string {
    Or(Lookup(t, "contactFormErrorSubmit"), "Failed to send message. Please try again.")
  }

  /** How the POST settles: an OK response whose body parsed as JSON, or
      anything else (non-OK status, unparsable body, network failure). */
  datatype PostResult = Delivered | Failed

  /** The page's state cells, plus the number of five-second resets to
      'idle' scheduled and not yet fired. */
  datatype ContactState = ContactState(
    form: FormData, status: Status, errorMessage: string, pendingResets: nat)

  const InitialState := ContactState(InitialForm, Idle, "", 0)

  /** `handleSubmit` up to its `await`: status 'loading' and the error
      cleared, then the required fields, then the e-mail pattern; only a
      form passing both is posted (as it stands at that moment). The form
      itself is never changed here. */
  function SubmitStarted(s: ContactState, t: Translations): (r: (ContactState, Option<FormData>))
    ensures r.0.form == s.form && r.0.pendingResets == s.pendingResets
    ensures r.1.Some? <==> RequiredPresent(s.form) && WellFormedEmail(s.form.email)
    ensures r.1.Some? ==> r.1.value == s.form && r.0.status == Loading && r.0.errorMessage == ""
    ensures !RequiredPresent(s.form) ==>
              r.0.status == Error && r.0.errorMessage == RequiredFieldsError(t)
    ensures RequiredPresent(s.form) && !WellFormedEmail(s.form.email) ==>
              r.0.status == Error && r.0.errorMessage == EmailError(t)
  {
    EmailRegexIff(s.form.email);
    var started := s.(status := Loading, errorMessage := "");
    if !RequiredPresent(s.form) then
      (started.(errorMessage := RequiredFieldsError(t), status := Error), None)
    else if !EmailRegexTest(s.form.email) then
      (started.(errorMessage := EmailError(t), status := Error), None)
    else
      (started, Some(s.form))
  }

  /** `handleSubmit` after the POST settles: success resets the form to
      exactly its initial value and schedules one return to 'idle'; failure
      keeps what was typed and reports the submit error. */
  function SubmitSettled(s: ContactState, p: PostResult, t: Translations): (r: ContactState)
    ensures r.status == (if p == Delivered then Success else Error)
    ensures r.form == (if p == Delivered then InitialForm else s.form)
    ensures r.errorMessage == (if p == Delivered then s.errorMessage else SubmitError(t))
    ensures r.pendingResets == s.pendingResets + (if p == Delivered then 1 else 0)
  {
    match p
    case Delivered => s.(status := Success, form := InitialForm, pendingResets := s.pendingResets + 1)
    case Failed => s.(errorMessage := SubmitError(t), status := Error)
  }

  /** A scheduled reset fires: the status goes back to 'idle' whatever it
      is by then. */
  function ResetFired(s: ContactState): ContactState
    requires s.pendingResets > 0
  {
    s.(status := Idle, pendingResets := s.pendingResets - 1)
  }

  /** A reset scheduled by an earlier success is not cancelled by a new
      submit: if it fires while the next POST is outstanding, the status
      reads 'idle' (re-enabling the submit button) until that POST settles. */
  lemma StaleResetDuringPost(s: ContactState, t: Translations)
    requires s.pendingResets > 0
    requires RequiredPresent(s.form) && WellFormedEmail(s.form.email)
    ensures var (posting, sent) := SubmitStarted(s, t);
      && sent.Some? && posting.status == Loading
      && ResetFired(posting).status == Idle
      && SubmitSettled(ResetFired(posting), Failed, t).status == Error
  {
  }

  /** The required-field check does not trim: a name of one space, with an
      e-mail and a message, is posted. */
  lemma WhitespaceNamePasses(t: Translations)
    ensures var s := InitialState.(form := FormData(" ", "a@b.co", "", "hi", "general"));
      SubmitStarted(s, t).1 == Some(s.form)
  {
    var e := "a@b.co";
    assert !IsWhitespace('a') && !IsWhitespace('@') && !IsWhitespace('b')
        && !IsWhitespace('.') && !IsWhitespace('c') && !IsWhitespace('o');
    RegexImpliesWellFormed(e, 1, 3);
  }

  /** An address without a '.' after its '@' is rejected and nothing is
      posted. */
  lemma NoDomainDotRejected(t: Translations)
    ensures var s := InitialState.(form := FormData("n", "a@b", "", "hi", "general"));
      SubmitStarted(s, t) == (s.(status := Error, errorMessage := EmailError(t)), None)
  {
  }

  /** A submit followed by a successful POST leaves exactly the initial
      form, whatever was typed. */
  lemma SuccessfulSubmitResetsForm(s: ContactState, t: Translations)
    requires RequiredPresent(s.form) && WellFormedEmail(s.form.email)
    ensures var started := SubmitStarted(s, t);
      && started.1 == Some(s.form)
      && SubmitSettled(started.0, Delivered, t).form == InitialForm
      && SubmitSettled(started.0, Delivered, t).status == Success
      && SubmitSettled(started.0, Failed, t).form == s.form
  {
  }

  /** The page's state cells and its pending reset timers. */
  class Contact {
    const t: Translations
    var formData: FormData
    var status: Status
    var errorMessage: string
    var pendingResets: nat

    function State(): ContactState
      reads this
    {
      ContactState(formData, status, errorMessage, pendingResets)
    }

    constructor (t: Translations)
      ensures State() == InitialState && this.t == t
    {
      this.t := t;
      formData := InitialForm;
      status := Idle;
      errorMessage := "";
      pendingResets := 0;
    }

    /** `handleChange` for the input named `field`. */
    method HandleChange(field: Field, value: string)
      modifies this
      ensures State() == old(State()).(form := With(old(formData), field, value))
    {
      formData := With(formData, field, value);
    }

    /** `handleSubmit` up to its `await`; returns the form posted, if any. */
    method StartSubmit() returns (sent: Option<FormData>)
      modifies this
      ensures (State(), sent) == SubmitStarted(old(State()), t)
    {
      status := Loading;
      errorMessage := "";
      if !RequiredPresent(formData) {
        errorMessage := RequiredFieldsError(t);
        status := Error;
        return None;
      }
      EmailRegexIff(formData.email);
      if !EmailRegexTest(formData.email) {
        errorMessage := EmailError(t);
        status := Error;
        return None;
      }
      sent := Some(formData);
    }

    /** `handleSubmit` after the POST settles with `p`. */
    method FinishSubmit(p: PostResult)
      modifies this
      ensures State() == SubmitSettled(old(State()), p, t)
    {
      match p {
        case Delivered =>
          status := Success;
          formData := InitialForm;
          pendingResets := pendingResets + 1;
        case Failed =>
          errorMessage := SubmitError(t);
          status := Error;
      }
    }

    /** One scheduled `setTimeout(() => setStatus('idle'), 5000)` fires. */
    method ResetTimerFires()
      requires pendingResets > 0
      modifies this
      ensures State() == old(State()).(status := Idle, pendingResets := old(pendingResets) - 1)
    {
      status := Idle;
      pendingResets := pendingResets - 1;
    }
  }
}
