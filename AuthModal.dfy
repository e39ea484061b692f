/** The sign-in dialog of src/components/Auth/AuthModal.tsx: which error
    text each failed sign-in or sign-up shows, the success path that closes
    the dialog, and the loading flag around each request. The requests are
    inputs: the error message they return, if any. */
module AuthModal {
  import opened Wrappers
  import opened Strings

  const InvalidCredentialsText: string := "Invalid email or password. Please try again."
  const ConfirmEmailText: string := "Please check your email and confirm "
    + "your account before signing in."
  const SignInDefault: string := "An error occurred during sign in"
  const AlreadyRegisteredText: string := "This account already exists. Please "
    + "sign in instead."
  const ShortPasswordText: string := "Password should be at least 6 "
    + "characters long."
  const InvalidEmailText: string := "Please enter a valid email address."
  const SignUpDefault: string := "An error occurred during sign up"
  const TwitterDefault: string := "An error occurred with Twitter sign in"
  const WelcomeBackText: string := "Welcome back to Invest IQ!"
  const AccountCreatedText: string := "Account created! Please check your "
    + "email to confirm your account."

  const InvalidCredentialsCode: string := "Invalid login credentials"
  const NotConfirmedCode: string := "Email not confirmed"
  const RegisteredCode: string := "User already registered"
  const ShortPasswordCode: string := "Password should be at least 6 "
    + "characters"
  const InvalidEmailCode: string := "Invalid email"

  /** `message || fallback`. */
  function OrDefault(message: string, fallback: string): (r: string)
    ensures message != "" ==> r == message
    ensures message == "" ==> r == fallback
  {
    if message != "" then message else fallback
  }

  /** The texts a failed sign-in can show. */
  datatype SignInError = BadCredentials | NotConfirmed | OtherSignIn

  /** The first phrase the error message contains decides. */
  function SignInErrorOf(message: string): SignInError
  {
    if Includes(message, InvalidCredentialsCode) then BadCredentials
    else if Includes(message, NotConfirmedCode) then NotConfirmed
    else OtherSignIn
  }

  lemma SignInErrorPrecedence(message: string)
    ensures SignInErrorOf(message) == BadCredentials <==> Includes(message, InvalidCredentialsCode)
    ensures SignInErrorOf(message) == NotConfirmed <==>
      !Includes(message, InvalidCredentialsCode) && Includes(message, NotConfirmedCode)
    ensures SignInErrorOf(message) == OtherSignIn <==>
      !Includes(message, InvalidCredentialsCode) && !Includes(message, NotConfirmedCode)
  {
  }

  function SignInErrorText(message: string): string
  {
    match SignInErrorOf(message)
    case BadCredentials => InvalidCredentialsText
    case NotConfirmed => ConfirmEmailText
    case OtherSignIn => OrDefault(message, SignInDefault)
  }

  /** The texts a failed sign-up can show. */
  datatype SignUpError = Registered | ShortPassword | BadEmail | OtherSignUp

  function SignUpErrorOf(message: string): SignUpError
  {
    if Includes(message, RegisteredCode) then Registered
    else if Includes(message, ShortPasswordCode) then ShortPassword
    else if Includes(message, InvalidEmailCode) then BadEmail
    else OtherSignUp
  }

  lemma SignUpErrorPrecedence(message: string)
    ensures SignUpErrorOf(message) == Registered <==> Includes(message, RegisteredCode)
    ensures SignUpErrorOf(message) == ShortPassword <==>
      !Includes(message, RegisteredCode) && Includes(message, ShortPasswordCode)
    ensures SignUpErrorOf(message) == BadEmail <==>
      !Includes(message, RegisteredCode) && !Includes(message, ShortPasswordCode) && Includes(message, InvalidEmailCode)
    ensures SignUpErrorOf(message) == OtherSignUp <==>
      !Includes(message, RegisteredCode) && !Includes(message, ShortPasswordCode) && !Includes(message, InvalidEmailCode)
  {
  }

  function SignUpErrorText(message: string): string
  {
    match SignUpErrorOf(message)
    case Registered => AlreadyRegisteredText
    case ShortPassword => ShortPasswordText
    case BadEmail => InvalidEmailText
    case OtherSignUp => OrDefault(message, SignUpDefault)
  }

  /** An empty message matches no phrase and gets the default text. */
  lemma EmptyMessageGetsDefault()
    ensures SignInErrorText("") == SignInDefault
    ensures SignUpErrorText("") == SignUpDefault
  {
    assert !Includes("", InvalidCredentialsCode) && !Includes("", NotConfirmedCode);
    assert !Includes("", RegisteredCode) && !Includes("", ShortPasswordCode) && !Includes("", InvalidEmailCode);
  }

  datatype Toast = ErrorToast(text: string) | SuccessToast(text: string)

  class Dialog {
    var loading: bool
    /** How many times `onClose` has been called. */
    var closeCalls: nat

    constructor()
      ensures !loading && closeCalls == 0
    {
      loading := false;
      closeCalls := 0;
    }

    /** The first step of every handler, before the request is awaited. */
    method BeginRequest()
      modifies this
      ensures loading && closeCalls == old(closeCalls)
    {
      loading := true;
    }

    /** `handleSignIn` after its request: an error shows its text, success
        welcomes the user and closes the dialog once; loading ends false on
        both paths. */
    method FinishSignIn(error: Option<string>) returns (toast: Toast)
      modifies this
      ensures !loading
      ensures error.Some? ==> toast == ErrorToast(SignInErrorText(error.value)) && closeCalls == old(closeCalls)
      ensures error.None? ==> toast == SuccessToast(WelcomeBackText) && closeCalls == old(closeCalls) + 1
    {
      if error.Some? {
        toast := ErrorToast(SignInErrorText(error.value));
      } else {
        toast := SuccessToast(WelcomeBackText);
        closeCalls := closeCalls + 1;
      }
      loading := false;
    }

    /** `handleSignUp` after its request. */
    method FinishSignUp(error: Option<string>) returns (toast: Toast)
      modifies this
      ensures !loading
      ensures error.Some? ==> toast == ErrorToast(SignUpErrorText(error.value)) && closeCalls == old(closeCalls)
      ensures error.None? ==> toast == SuccessToast(AccountCreatedText) && closeCalls == old(closeCalls) + 1
    {
      if error.Some? {
        toast := ErrorToast(SignUpErrorText(error.value));
      } else {
        toast := SuccessToast(AccountCreatedText);
        closeCalls := closeCalls + 1;
      }
      loading := false;
    }

    /** `handleTwitterSignIn` after its request: the dialog stays open
        either way, since the sign-in continues by redirect. */
    method FinishTwitter(error: Option<string>) returns (toast: Option<Toast>)
      modifies this
      ensures !loading && closeCalls == old(closeCalls)
      ensures error.Some? ==> toast == Some(ErrorToast(OrDefault(error.value, TwitterDefault)))
      ensures error.None? ==> toast == None
    {
      toast := None;
      if error.Some? {
        toast := Some(ErrorToast(OrDefault(error.value, TwitterDefault)));
      }
      loading := false;
    }
  }
}
