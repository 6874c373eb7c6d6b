/**
  The sign-in dialog: a login/register form and, after a registration, an
  email-verification form. A submission is split in two steps, the moment
  the handler sends its request (`loading` becomes true) and the moment the
  awaited reply arrives; what the handler captured when it started is kept in
  `pending`, because the form fields stay editable while the request runs.
 */
module AuthDialogFlow {
  import opened Wrappers
  import opened Text
  import opened Http
  import opened Browser
  import opened AuthClient


  /** The request an unfinished handler is waiting on, with the values it captured. */
  datatype Submission =
    | LoginSubmission(email: string, password: string)
    | RegisterSubmission(email: string, password: string)
    | VerifySubmission(email: string, code: string)

  /** `result.message` of a reply body, which the register response does not carry ("" stands for undefined). */
  function MessageField(body: Payload): string {
    match body
    case Message(m) => m
    case ResetCodeSent(m, _) => m
    case CodeVerified(m, _) => m
    case Subscription(m, _) => m
    case _ => ""
  }

  class AuthDialog {
    const auth: AuthService
    /** The `open` prop as the dialog's `onOpenChange` sets it. */
    var open: bool
    /** How many times `onSuccess` has been called. */
    var successSignals: nat
    var isLogin: bool
    var email: string
    var password: string
    var verificationCode: string
    var showVerification: bool
    var loading: bool
    var error: string
    var successMessage: string
    var pending: Option<Submission>
    /** The email state when the verification form appeared; that form offers no email field. */
    ghost var verificationEmail: string

    ghost predicate Valid()
      reads this
    {
      && (loading <==> pending.Some?)
      && (showVerification ==> email == verificationEmail)
      && (pending.Some? ==> (pending.value.VerifySubmission? <==> showVerification))
    }

    /** The initial state: login mode, verification hidden, every field and message empty. */
    constructor (auth: AuthService, open: bool)
      ensures Valid()
      ensures this.auth == auth && this.open == open && successSignals == 0
      ensures isLogin && !showVerification && !loading && pending.None?
      ensures email == "" && password == "" && verificationCode == "" && error == "" && successMessage == ""
    {
      this.auth := auth;
      this.open := open;
      successSignals := 0;
      isLogin := true;
      email, password, verificationCode := "", "", "";
      showVerification, loading := false, false;
      error, successMessage := "", "";
      pending := None;
      verificationEmail := "";
    }

    /** The login/register tabs, which exist only while verification is hidden. */
    method SelectTab(login: bool)
      requires Valid() && !showVerification
      modifies this
      ensures Valid()
      ensures isLogin == login
      ensures email == old(email) && password == old(password) && verificationCode == old(verificationCode)
      ensures loading == old(loading) && pending == old(pending) && showVerification == old(showVerification)
      ensures error == old(error) && successMessage == old(successMessage)
      ensures open == old(open) && successSignals == old(successSignals)
    {
      isLogin := login;
    }

    method EditEmail(value: string)
      requires Valid() && !showVerification
      modifies this
      ensures Valid() && email == value
      ensures isLogin == old(isLogin) && password == old(password) && verificationCode == old(verificationCode)
      ensures loading == old(loading) && pending == old(pending) && showVerification == old(showVerification)
      ensures error == old(error) && successMessage == old(successMessage)
      ensures open == old(open) && successSignals == old(successSignals)
    {
      email := value;
    }

    method EditPassword(value: string)
      requires Valid() && !showVerification
      modifies this
      ensures Valid() && password == value
      ensures isLogin == old(isLogin) && email == old(email) && verificationCode == old(verificationCode)
      ensures loading == old(loading) && pending == old(pending) && showVerification == old(showVerification)
      ensures error == old(error) && successMessage == old(successMessage)
      ensures open == old(open) && successSignals == old(successSignals)
    {
      password := value;
    }

    method EditCode(value: string)
      requires Valid() && showVerification
      modifies this
      ensures Valid() && verificationCode == value
      ensures isLogin == old(isLogin) && email == old(email) && password == old(password)
      ensures loading == old(loading) && pending == old(pending) && showVerification == old(showVerification)
      ensures error == old(error) && successMessage == old(successMessage)
      ensures open == old(open) && successSignals == old(successSignals)
    {
      verificationCode := value;
    }

    /**
      `handleSubmit` up to its `await`: clear both messages, set loading and
      send the login or register request for the current fields. The submit
      button is disabled while loading.
     */
    method StartSubmit() returns (call: Call)
      requires Valid() && !showVerification && !loading
      modifies this
      ensures Valid() && loading
      ensures error == "" && successMessage == ""
      ensures isLogin == old(isLogin) && email == old(email) && password == old(password)
      ensures verificationCode == old(verificationCode)
      ensures showVerification == old(showVerification) && open == old(open) && successSignals == old(successSignals)
      ensures old(isLogin) ==> pending == Some(LoginSubmission(email, password)) && call == LoginCall(email, password)
      ensures !old(isLogin) ==> pending == Some(RegisterSubmission(email, password)) && call == RegisterCall(email, password)
    {
      error := "";
      successMessage := "";
      loading := true;
      if isLogin {
        pending := Some(LoginSubmission(email, password));
        call := LoginCall(email, password);
      } else {
        pending := Some(RegisterSubmission(email, password));
        call := RegisterCall(email, password);
      }
    }

    /**
      `handleSubmit` after its `await`, for the auth endpoint's `reply`. A
      successful login signals success, closes the dialog and clears the
      fields; a successful registration shows the verification form; a
      failure shows the error and changes nothing else. Loading always ends.
     */
    method FinishSubmit(reply: Reply)
      requires Valid() && pending.Some? && !pending.value.VerifySubmission?
      modifies this, auth.storage
      ensures Valid() && !loading && pending.None?
      ensures isLogin == old(isLogin) && verificationCode == old(verificationCode)
      ensures reply.Ok? && old(pending).value.LoginSubmission? ==>
        && successSignals == old(successSignals) + 1 && !open
        && email == "" && password == ""
        && showVerification == old(showVerification) && error == old(error) && successMessage == old(successMessage)
      ensures reply.Ok? && old(pending).value.RegisterSubmission? ==>
        && showVerification && successMessage == MessageField(reply.body)
        && successSignals == old(successSignals) && open == old(open)
        && email == old(email) && password == old(password) && error == old(error)
      ensures !reply.Ok? ==>
        && error == (if reply.Threw? then reply.message
                     else OrElse(reply.error, if old(pending).value.LoginSubmission? then MsgLoginFailed else MsgRegistrationFailed))
        && successSignals == old(successSignals) && open == old(open)
        && email == old(email) && password == old(password)
        && showVerification == old(showVerification) && successMessage == old(successMessage)
      ensures reply.Ok? ==> auth.storage.items == old(auth.storage.items)[TokenKey := TokenField(reply.body)]
      ensures !reply.Ok? ==> auth.storage.items == old(auth.storage.items)
    {
      var submission := pending.value;
      if submission.LoginSubmission? {
        FinishLogin(submission, reply);
      } else {
        FinishRegister(submission, reply);
      }
      loading := false;
      pending := None;
    }

    /** The login branch of `handleSubmit` after its `await`, before loading ends. */
    method FinishLogin(submission: Submission, reply: Reply)
      requires submission.LoginSubmission?
      modifies this, auth.storage
      ensures isLogin == old(isLogin) && verificationCode == old(verificationCode)
      ensures loading == old(loading) && pending == old(pending) && verificationEmail == old(verificationEmail)
      ensures showVerification == old(showVerification) && successMessage == old(successMessage)
      ensures reply.Ok? ==>
        && successSignals == old(successSignals) + 1 && !open
        && email == "" && password == "" && error == old(error)
      ensures !reply.Ok? ==>
        && error == (if reply.Threw? then reply.message else OrElse(reply.error, MsgLoginFailed))
        && successSignals == old(successSignals) && open == old(open)
        && email == old(email) && password == old(password)
      ensures reply.Ok? ==> auth.storage.items == old(auth.storage.items)[TokenKey := TokenField(reply.body)]
      ensures !reply.Ok? ==> auth.storage.items == old(auth.storage.items)
    {
      var _, r := auth.Login(submission.email, submission.password, reply);
      if r.Success? {
        successSignals := successSignals + 1;
        open := false;
        email := "";
        password := "";
      } else {
        error := r.error;
      }
    }

    /** The register branch of `handleSubmit` after its `await`, before loading ends. */
    method FinishRegister(submission: Submission, reply: Reply)
      requires submission.RegisterSubmission?
      modifies this, auth.storage
      ensures isLogin == old(isLogin) && verificationCode == old(verificationCode)
      ensures loading == old(loading) && pending == old(pending)
      ensures successSignals == old(successSignals) && open == old(open)
      ensures email == old(email) && password == old(password)
      ensures reply.Ok? ==>
        && showVerification && successMessage == MessageField(reply.body)
        && error == old(error) && verificationEmail == email
      ensures !reply.Ok? ==>
        && error == (if reply.Threw? then reply.message else OrElse(reply.error, MsgRegistrationFailed))
        && showVerification == old(showVerification) && successMessage == old(successMessage)
        && verificationEmail == old(verificationEmail)
      ensures reply.Ok? ==> auth.storage.items == old(auth.storage.items)[TokenKey := TokenField(reply.body)]
      ensures !reply.Ok? ==> auth.storage.items == old(auth.storage.items)
    {
      var _, r := auth.Register(submission.email, submission.password, reply);
      if r.Success? {
        successMessage := MessageField(r.value);
        showVerification := true;
        verificationEmail := email;
      } else {
        error := r.error;
      }
    }

    /**
      `handleVerify` as written: `authService.verifyEmail` does not exist, so
      the call throws a TypeError with message `typeError` before any request
      is sent; the dialog shows that message and stays on the verification form.
     */
    method SubmitVerifyAsWritten(typeError: string)
      requires Valid() && showVerification && !loading
      modifies this
      ensures Valid()
      ensures error == typeError && !loading && pending.None?
      ensures showVerification && open == old(open) && successSignals == old(successSignals)
      ensures email == old(email) && password == old(password) && verificationCode == old(verificationCode)
      ensures isLogin == old(isLogin) && successMessage == old(successMessage)
    {
      error := "";
      loading := true;
      error := typeError;
      loading := false;
    }

    /**
      `handleVerify` up to its `await`, with a working verification call: clear
      the error, set loading and send the email kept from registration with the code.
     */
    method StartVerify()
      requires Valid() && showVerification && !loading
      modifies this
      ensures Valid() && loading && error == ""
      ensures pending == Some(VerifySubmission(verificationEmail, verificationCode))
      ensures email == old(email) && password == old(password) && verificationCode == old(verificationCode)
      ensures showVerification && isLogin == old(isLogin) && open == old(open) && successSignals == old(successSignals)
      ensures successMessage == old(successMessage)
    {
      error := "";
      loading := true;
      pending := Some(VerifySubmission(email, verificationCode));
    }

    /**
      `handleVerify` after its `await`: on success signal it, close the dialog,
      clear every field and hide verification; on failure show the message.
     */
    method FinishVerify(outcome: Result<(), string>)
      requires Valid() && pending.Some? && pending.value.VerifySubmission?
      modifies this
      ensures Valid() && !loading && pending.None? && isLogin == old(isLogin)
      ensures successMessage == old(successMessage)
      ensures outcome.Success? ==>
        && successSignals == old(successSignals) + 1 && !open
        && email == "" && password == "" && verificationCode == "" && !showVerification
        && error == old(error)
      ensures outcome.Failure? ==>
        && error == outcome.error
        && successSignals == old(successSignals) && open == old(open)
        && email == old(email) && password == old(password) && verificationCode == old(verificationCode)
        && showVerification == old(showVerification)
    {
      if outcome.Success? {
        successSignals := successSignals + 1;
        open := false;
        email, password, verificationCode := "", "", "";
        showVerification := false;
      } else {
        error := outcome.error;
      }
      loading := false;
      pending := None;
    }
  }
}
