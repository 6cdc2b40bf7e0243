/** The registration screen: five form fields, the client-side checks run on
    submit, the one POST they guard, and what the screen shows afterwards. */
module Register {
  import opened Web
  import opened Session

  const MissingFieldMessage := "Please fill in all fields."
  const BadPhoneMessage := "Phone number must be 10 digits."
  const WeakPasswordMessage := "Password must be at least 6 characters."
  const FallbackMessage := "Something went wrong. Please try again."

  const PhoneLength: nat := 10
  const MinPasswordLength: nat := 6
  const RegisterPath := "/api/v1/user/register"
  const HomeRoute := "/"

  /** The keys of the JSON body, in the order the request writes them. */
  const BodyKeys := ["name", "phone", "email", "role", "password"]

  /** A snapshot of the five form fields. */
  datatype Fields = Fields(name: string, email: string, phone: string, password: string, role: string)

  const Blank := Fields("", "", "", "", "")

  datatype ValidationError = MissingField | BadPhone | WeakPassword

  /** The notification shown to the visitor. */
  datatype Toast = SuccessToast(text: string) | ErrorToast(text: string)

  /** What the HTTP client reported for the POST: the server's `message` on a
      2xx answer, otherwise the optional `message` of the error body and the
      optional message of the transport error. */
  datatype PostOutcome =
    | Registered(message: string)
    | PostFailed(responseMessage: Option<string>, transportMessage: Option<string>)

  /** What the screen renders. */
  datatype View = RedirectTo(path: string) | ShowForm

  function ValidationMessage(e: ValidationError): string {
    match e
    case MissingField => MissingFieldMessage
    case BadPhone => BadPhoneMessage
    case WeakPassword => WeakPasswordMessage
  }

  /** `!name || !email || !phone || !password || !role` on the field strings. */
  predicate AnyBlank(f: Fields) {
    !TruthyText(f.name) || !TruthyText(f.email) || !TruthyText(f.phone)
    || !TruthyText(f.password) || !TruthyText(f.role)
  }

  /** The pattern `^[0-9]{n}$` tested against `s`, one character at a time. */
  function MatchesDigitRun(s: string, n: nat): bool
    decreases n
  {
    if n == 0 then s == [] else s != [] && IsDigit(s[0]) && MatchesDigitRun(s[1..], n - 1)
  }

  /** What the phone check accepts: exactly ten characters, each of them 0-9. */
  ghost predicate WellFormedPhone(p: string) {
    |p| == PhoneLength && AllDigits(p)
  }

  lemma {:induction false} MatchesDigitRunIff(s: string, n: nat)
    ensures MatchesDigitRun(s, n) <==> |s| == n && AllDigits(s)
    decreases n
  {
    if n > 0 && s != [] {
      MatchesDigitRunIff(s[1..], n - 1);
      assert forall i :: 0 < i < |s| ==> s[i] == s[1..][i - 1];
    }
  }

  /** The checks of the submit handler, in order; only the first failure is
      reported. */
  function Validate(f: Fields): (r: Outcome<ValidationError>)
    ensures r == Fail(MissingField) <==> AnyBlank(f)
    ensures r == Fail(BadPhone) <==> !AnyBlank(f) && !WellFormedPhone(f.phone)
    ensures r == Fail(WeakPassword) <==>
      !AnyBlank(f) && WellFormedPhone(f.phone) && |f.password| < MinPasswordLength
    ensures r == Pass <==>
      !AnyBlank(f) && WellFormedPhone(f.phone) && |f.password| >= MinPasswordLength
  {
    MatchesDigitRunIff(f.phone, PhoneLength);
    if AnyBlank(f) then Fail(MissingField)
    else if !MatchesDigitRun(f.phone, PhoneLength) then Fail(BadPhone)
    else if |f.password| < MinPasswordLength then Fail(WeakPassword)
    else Pass
  }

  /** The JSON body `{ name, phone, email, role, password }`. */
  function RequestBody(f: Fields): (body: seq<(string, string)>)
    ensures |body| == |BodyKeys|
    ensures forall i :: 0 <= i < |body| ==> body[i].0 == BodyKeys[i]
    ensures Lookup(body, "name") == Some(f.name)
    ensures Lookup(body, "phone") == Some(f.phone)
    ensures Lookup(body, "email") == Some(f.email)
    ensures Lookup(body, "role") == Some(f.role)
    ensures Lookup(body, "password") == Some(f.password)
  {
    var body := [("name", f.name), ("phone", f.phone), ("email", f.email), ("role", f.role), ("password", f.password)];
    LookupFirst(body, 0);
    LookupFirst(body, 1);
    LookupFirst(body, 2);
    LookupFirst(body, 3);
    LookupFirst(body, 4);
    body
  }

  /** The registration POST for the current fields. */
  function RegisterRequest(baseUrl: string, f: Fields): Request {
    Request(Post, baseUrl + RegisterPath, RequestBody(f))
  }

  /** The text of the error notification after a failed POST. */
  function FailureText(responseMessage: Option<string>, transportMessage: Option<string>): (r: string)
    ensures r != ""
    ensures TruthyOptText(responseMessage) ==> r == responseMessage.value
    ensures !TruthyOptText(responseMessage) && TruthyOptText(transportMessage) ==>
      r == transportMessage.value
    ensures !TruthyOptText(responseMessage) && !TruthyOptText(transportMessage) ==>
      r == FallbackMessage
  {
    if TruthyOptText(responseMessage) then responseMessage.value
    else if TruthyOptText(transportMessage) then transportMessage.value
    else FallbackMessage
  }

  /** The render guard: an authorized visitor is sent home instead of seeing
      the form. */
  function Guard(isAuthorized: bool): (s: View)
    ensures s != ShowForm <==> isAuthorized
    ensures s != ShowForm ==> s == RedirectTo(HomeRoute)
  {
    if isAuthorized then RedirectTo(HomeRoute) else ShowForm
  }

  /** The registration screen's form state. */
  class Form {
    var name: string
    var email: string
    var phone: string
    var password: string
    var role: string
    const context: Context

    constructor (context: Context)
      ensures Current() == Blank && this.context == context
    {
      name, email, phone, password, role := "", "", "", "", "";
      this.context := context;
    }

    function Current(): Fields
      reads this
    {
      Fields(name, email, phone, password, role)
    }

    /** Empties the five fields, one setter after another, as the handler does
        after a successful registration. */
    method Clear()
      modifies this
      ensures Current() == Blank
    {
      name := "";
      email := "";
      password := "";
      phone := "";
      role := "";
    }

    /** The submit handler. The network's answer is the parameter `outcome`;
        it is consulted only when a request is sent. Returns the request
        sent, if any, and the notification shown. */
    method Submit(baseUrl: string, outcome: PostOutcome) returns (sent: Option<Request>, note: Toast)
      modifies this, context
      ensures context.user == old(context.user)
      ensures Validate(old(Current())).Fail? ==>
        sent == None
        && note == ErrorToast(ValidationMessage(Validate(old(Current())).error))
        && Current() == old(Current())
        && context.isAuthorized == old(context.isAuthorized)
      ensures Validate(old(Current())).Pass? ==>
        sent.Some?
        && sent.value.verb == Post
        && sent.value.url == baseUrl + "/api/v1/user/register"
        && sent.value.body == RequestBody(old(Current()))
      ensures Validate(old(Current())).Pass? && outcome.Registered? ==>
        note == SuccessToast(outcome.message)
        && Current() == Blank
        && context.isAuthorized
        && Guard(context.isAuthorized) == RedirectTo("/")
      ensures Validate(old(Current())).Pass? && outcome.PostFailed? ==>
        note == ErrorToast(FailureText(outcome.responseMessage, outcome.transportMessage))
        && Current() == old(Current())
        && context.isAuthorized == old(context.isAuthorized)
    {
      var fields := Current();
      var check := Validate(fields);
      if check.Fail? {
        sent := None;
        note := ErrorToast(ValidationMessage(check.error));
        return;
      }
      var request := RegisterRequest(baseUrl, fields);
      sent := Some(request);
      match outcome
      case Registered(message) =>
        note := SuccessToast(message);
        Clear();
        context.SetAuthorized(true);
        assert Current() == Blank;
      case PostFailed(responseMessage, transportMessage) =>
        note := ErrorToast(FailureText(responseMessage, transportMessage));
    }
  }
}
