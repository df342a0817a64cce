/** The sign-up form (frontend/src/pages/SignUpPage.jsx): the client checks
    that the two passwords agree and that the password has at least six
    characters, in that order, before it sends the e-mail and password to the
    registration endpoint; the server's answer decides the message shown.
    The request itself and the account service behind it are outside the
    model: a submission yields the request body, and the answer comes back as
    a `Response`. */
module SignUp {
  import opened Js

  /** The three inputs of the form, by their `name` attribute. */
  datatype Field = Email | Password | ConfirmPassword

  datatype Form = Form(email: string, password: string, confirmPassword: string)

  /** The `type` of the message: empty, `error` or `success`. */
  datatype Kind = Plain | Error | Success

  datatype Message = Message(kind: Kind, text: string)

  const NoMessage := Message(Plain, "")
  const MismatchText := "Passwords do not match!"
  const TooShortText := "Password must be at least 6 characters long!"
  const CreatedText := "Account created successfully! Redirecting to login..."
  const FailedText := "Sign up failed. Please try again."
  const OfflineText := "Could not connect to server. Please check your internet connection."
  const MinPasswordLength := 6

  /** The JSON body of the sign-up request. */
  datatype SignupRequest = SignupRequest(email: string, password: string)

  /** How the request ends: a 2xx answer, another answer with the `detail`
      field of its JSON body (if it has one), or a rejected `fetch` or
      unreadable body, which lands in the `catch`. */
  datatype Response = Ok | NotOk(detail: Option<string>) | NetworkError

  /** `handleInputChange`: the field named by the input takes its value. */
  function WithField(f: Form, field: Field, value: string): (r: Form)
    ensures field == Email ==> r == f.(email := value)
    ensures field == Password ==> r == f.(password := value)
    ensures field == ConfirmPassword ==> r == f.(confirmPassword := value)
  {
    match field
    case Email => f.(email := value)
    case Password => f.(password := value)
    case ConfirmPassword => f.(confirmPassword := value)
  }

  /** The validation prefix of `handleSubmit`: the error it shows, if any.
      The mismatch check comes first. */
  function Validate(f: Form): (err: Option<string>)
    ensures f.password != f.confirmPassword ==> err == Some(MismatchText)
    ensures f.password == f.confirmPassword && |f.password| < MinPasswordLength ==> err == Some(TooShortText)
    ensures err.None? <==> f.password == f.confirmPassword && |f.password| >= MinPasswordLength
  {
    if f.password != f.confirmPassword then Some(MismatchText)
    else if |f.password| < MinPasswordLength then Some(TooShortText)
    else None
  }

  /** The request a submission sends, if it gets past the checks: a password
      of six characters or more that was typed twice, and nothing of the
      confirmation field but that. */
  function RequestFor(f: Form): (req: Option<SignupRequest>)
    ensures req.Some? <==> Validate(f).None?
    ensures req.Some? ==> req.value.email == f.email && req.value.password == f.password
    ensures req.Some? ==> req.value.password == f.confirmPassword && |req.value.password| >= MinPasswordLength
  {
    if Validate(f).None? then Some(SignupRequest(f.email, f.password)) else None
  }

  /** The message that follows the answer. A `detail` that is absent or the
      empty string falls back to the generic text, as `||` does. */
  function ResponseMessage(resp: Response): (m: Message)
    ensures resp.Ok? <==> m.kind == Success
    ensures m.text != ""
    ensures resp.NotOk? && resp.detail.Some? && resp.detail.value != "" ==> m == Message(Error, resp.detail.value)
    ensures resp.NotOk? && (resp.detail.None? || resp.detail.value == "") ==> m == Message(Error, FailedText)
    ensures resp.NetworkError? ==> m == Message(Error, OfflineText)
  {
    match resp
    case Ok => Message(Success, CreatedText)
    case NotOk(detail) => Message(Error, if detail.Some? && detail.value != "" then detail.value else FailedText)
    case NetworkError => Message(Error, OfflineText)
  }

  class SignUpPage {
    var form: Form
    var message: Message
    var loading: bool
    var showPassword: bool
    /** Set once a successful sign-up has scheduled the move to the login page. */
    var redirecting: bool

    constructor ()
      ensures form == Form("", "", "") && message == NoMessage
      ensures !loading && !showPassword && !redirecting
    {
      form := Form("", "", "");
      message := NoMessage;
      loading, showPassword, redirecting := false, false, false;
    }

    /** Typing in one input: only that field changes, and a shown message is cleared. */
    method InputChange(field: Field, value: string)
      modifies this`form, this`message
      ensures form == WithField(old(form), field, value)
      ensures message == (if old(message).text != "" then NoMessage else old(message))
    {
      form := WithField(form, field, value);
      if message.text != "" {
        message := NoMessage;
      }
    }

    /** The eye button. */
    method TogglePassword()
      modifies this`showPassword
      ensures showPassword == !old(showPassword)
    {
      showPassword := !showPassword;
    }

    /** The submit handler up to the request: a failed check shows its error
        and sends nothing; otherwise the form starts loading, the message is
        cleared and `request` is the body that is posted. */
    method Submit() returns (request: Option<SignupRequest>)
      modifies this`message, this`loading
      ensures request == RequestFor(form)
      ensures Validate(form).Some? ==> message == Message(Error, Validate(form).value) && loading == old(loading)
      ensures Validate(form).None? ==> message == NoMessage && loading
    {
      if form.password != form.confirmPassword {
        message := Message(Error, MismatchText);
        return None;
      }
      if |form.password| < MinPasswordLength {
        message := Message(Error, TooShortText);
        return None;
      }
      loading := true;
      message := NoMessage;
      request := Some(SignupRequest(form.email, form.password));
    }

    /** The rest of the handler once the request has ended: the message for
        the answer, the redirect on success, and loading off in `finally`. */
    method HandleResponse(resp: Response)
      modifies this`message, this`loading, this`redirecting
      ensures message == ResponseMessage(resp) && !loading
      ensures redirecting == (old(redirecting) || resp.Ok?)
    {
      message := ResponseMessage(resp);
      if resp.Ok? {
        redirecting := true;
      }
      loading := false;
    }
  }
}
