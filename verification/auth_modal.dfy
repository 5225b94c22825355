/** The sign-in/sign-up dialog: the validation order and the outcome of
    `handleSubmit`. `login` and `register` come from the session provider and
    are not modelled; whether their promise rejects, and with what, is a
    parameter. */
module AuthModal {
  import opened Base
  import opened Text

  const UsernameRequired: string := "Vui lòng nhập tên người dùng"
  const PasswordMismatch: string := "Mật khẩu nhập lại không khớp"
  const GenericFailure: string := "Đã có lỗi xảy ra"

  /** The session call a submit makes. */
  datatype AuthCall =
    | Login(email: string, password: string)
    | Register(username: string, email: string, password: string, rePassword: string)

  /** How the awaited `login`/`register` settled. */
  datatype CallOutcome = Returned | Threw(thrown: Thrown)

  /** The registration checks, in source order: the first failing one gives
      the message, and `None` means both passed. */
  function RegisterCheck(username: string, password: string, rePassword: string): (error: Option<string>)
    ensures error == Some(UsernameRequired) <==> AllWhitespace(username)
    ensures error == Some(PasswordMismatch) <==> !AllWhitespace(username) && password != rePassword
    ensures error.None? <==> !AllWhitespace(username) && password == rePassword
  {
    if IsBlank(username) then Some(UsernameRequired)
    else if password != rePassword then Some(PasswordMismatch)
    else None
  }

  /** The call a submit makes, or `None` when a registration check fails:
      signing in always calls `login`, with no username or password-match check. */
  function SubmitCall(isLogin: bool, username: string, email: string, password: string, rePassword: string)
    : (call: Option<AuthCall>)
    ensures isLogin ==> call == Some(Login(email, password))
    ensures !isLogin ==> (call.Some? <==> !AllWhitespace(username) && password == rePassword)
    ensures !isLogin && call.Some? ==> call.value == Register(username, email, password, rePassword)
  {
    if isLogin then Some(Login(email, password))
    else if RegisterCheck(username, password, rePassword).None? then Some(Register(username, email, password, rePassword))
    else None
  }

  /** The message left in `error` when the call rejects. */
  function FailureMessage(thrown: Thrown): (message: string)
    ensures thrown.ErrorObject? ==> message == thrown.message
    ensures thrown.OtherValue? ==> message == GenericFailure
  {
    MessageOr(thrown, GenericFailure)
  }

  class AuthForm {
    var isLogin: bool
    var username: string
    var email: string
    var password: string
    var rePassword: string
    var error: Option<string>

    constructor ()
      ensures isLogin && username == "" && email == "" && password == "" && rePassword == "" && error == None
    {
      isLogin := true;
      username, email, password, rePassword := "", "", "", "";
      error := None;
    }

    /** `handleSubmit` up to the awaited call: the error is cleared; signing
        in calls `login` with no further check; signing up checks the username
        before the passwords, and a failed check leaves its message and calls
        nothing. */
    method BeginSubmit() returns (call: Option<AuthCall>)
      modifies this`error
      ensures call == SubmitCall(isLogin, username, email, password, rePassword)
      ensures error == if isLogin then None else RegisterCheck(username, password, rePassword)
    {
      error := None;
      if !isLogin {
        error := RegisterCheck(username, password, rePassword);
      }
      call := SubmitCall(isLogin, username, email, password, rePassword);
    }

    /** `handleSubmit` once the call has settled: `onClose` runs only when it
        returned; a rejection leaves its message in `error`. */
    method SettleSubmit(outcome: CallOutcome) returns (closed: bool)
      modifies this`error
      ensures closed <==> outcome.Returned?
      ensures error == if outcome.Returned? then old(error) else Some(FailureMessage(outcome.thrown))
    {
      closed := outcome.Returned?;
      if outcome.Threw? {
        error := Some(FailureMessage(outcome.thrown));
      }
    }

    /** The whole `handleSubmit`. */
    method HandleSubmit(outcome: CallOutcome) returns (call: Option<AuthCall>, closed: bool)
      modifies this`error
      ensures call == SubmitCall(isLogin, username, email, password, rePassword)
      ensures closed <==> call.Some? && outcome.Returned?
      ensures call.None? ==> error == RegisterCheck(username, password, rePassword)
      ensures call.Some? && outcome.Returned? ==> error == None
      ensures outcome.Threw? && call.Some? ==> error == Some(FailureMessage(outcome.thrown))
    {
      closed := false;
      call := BeginSubmit();
      if call.Some? {
        closed := SettleSubmit(outcome);
      }
    }
  }

  /** Signing up with a blank username reports the username, even when the
      passwords differ too: the username check comes first. */
  lemma UsernameCheckedFirst(username: string, password: string, rePassword: string)
    requires AllWhitespace(username)
    ensures RegisterCheck(username, password, rePassword) == Some(UsernameRequired)
  {
  }
}
