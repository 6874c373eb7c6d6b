/**
  The three-step password recovery dialog: ask for a code by email, check
  the code, set the new password. Every input and button of a step is
  disabled while its request runs, so the step and the fields cannot change
  between a handler's start and its finish. The notifications it raises
  (`toast.success`, `toast.error`) are kept, in order, in `toasts`.
 */
module PasswordResetFlow {
  import opened Wrappers
  import opened Text
  import opened Http
  import opened Browser

  datatype Step = EmailStep | CodeStep | PasswordStep

  const MsgCodeSent := "Код для восстановления отправлен на вашу почту"
  const MsgSendFailed := "Не удалось отправить код"
  const MsgSendCrashed := "Произошла ошибка при отправке кода"
  const MsgCodeConfirmed := "Код подтверждён, введите новый пароль"
  const MsgWrongCode := "Неверный код"
  const MsgVerifyCrashed := "Произошла ошибка при проверке кода"
  const MsgPasswordTooShort := "Пароль должен быть не менее 6 символов"
  const MsgPasswordChanged := "Пароль успешно изменён! Войдите с новым паролем"
  const MsgChangeFailed := "Не удалось изменить пароль"
  const MsgChangeCrashed := "Произошла ошибка при изменении пароля"

  /** The client's own lower bound on the new password's length. */
  const MinLength := 6

  function RequestResetCall(email: string): Call {
    PostJson(AccountApi, map["action" := "request_reset", "email" := email])
  }

  function VerifyCodeCall(email: string, code: string): Call {
    PostJson(AccountApi, map["action" := "verify_reset_code", "email" := email, "code" := code])
  }

  function ResetPasswordCall(email: string, code: string, password: string): Call {
    PostJson(AccountApi, map["action" := "reset_password", "email" := email, "code" := code, "password" := password])
  }

  class PasswordResetDialog {
    var open: bool
    var step: Step
    var email: string
    var code: string
    var password: string
    var loading: bool
    var toasts: seq<Toast>
    /** The address the last code was requested for. */
    ghost var codeSentTo: string
    /** The code the account endpoint last accepted. */
    ghost var acceptedCode: string

    /** Past the first step the email is the one the code went to; on the last, the code is the accepted one. */
    ghost predicate Valid()
      reads this
    {
      && (step != EmailStep ==> email == codeSentTo)
      && (step == PasswordStep ==> code == acceptedCode)
    }

    constructor (open: bool)
      ensures Valid()
      ensures this.open == open && step == EmailStep && !loading && toasts == []
      ensures email == "" && code == "" && password == ""
    {
      this.open := open;
      step := EmailStep;
      email, code, password := "", "", "";
      loading := false;
      toasts := [];
      codeSentTo, acceptedCode := "", "";
    }

    method EditEmail(value: string)
      requires Valid() && step == EmailStep && !loading
      modifies this
      ensures Valid() && email == value
      ensures step == old(step) && code == old(code) && password == old(password) && loading == old(loading)
      ensures toasts == old(toasts) && open == old(open)
    {
      email := value;
    }

    method EditCode(value: string)
      requires Valid() && step == CodeStep && !loading
      modifies this
      ensures Valid() && code == value
      ensures step == old(step) && email == old(email) && password == old(password) && loading == old(loading)
      ensures toasts == old(toasts) && open == old(open)
    {
      code := value;
    }

    method EditPassword(value: string)
      requires Valid() && step == PasswordStep && !loading
      modifies this
      ensures Valid() && password == value
      ensures step == old(step) && email == old(email) && code == old(code) && loading == old(loading)
      ensures toasts == old(toasts) && open == old(open)
    {
      password := value;
    }

    /** The "Назад" button of the code step. */
    method Back()
      requires Valid() && step == CodeStep && !loading
      modifies this
      ensures Valid() && step == EmailStep
      ensures email == old(email) && code == old(code) && password == old(password) && loading == old(loading)
      ensures toasts == old(toasts) && open == old(open)
    {
      step := EmailStep;
    }

    /** `handleRequestReset` up to its `await`. */
    method StartRequestReset() returns (call: Call)
      requires Valid() && step == EmailStep && !loading
      modifies this
      ensures Valid() && loading && call == RequestResetCall(email)
      ensures step == old(step) && email == old(email) && code == old(code) && password == old(password)
      ensures toasts == old(toasts) && open == old(open)
    {
      loading := true;
      call := RequestResetCall(email);
    }

    /** `handleRequestReset` after its `await`: an ok reply moves to the code step. */
    method FinishRequestReset(reply: Reply)
      requires Valid() && step == EmailStep && loading
      modifies this
      ensures Valid() && !loading
      ensures email == old(email) && code == old(code) && password == old(password) && open == old(open)
      ensures reply.Ok? ==> step == CodeStep && toasts == old(toasts) + [Toast(true, MsgCodeSent)]
      ensures !reply.Ok? ==> step == EmailStep && toasts == old(toasts) + [FailureToast(reply, MsgSendFailed, MsgSendCrashed)]
    {
      if reply.Ok? {
        toasts := toasts + [Toast(true, MsgCodeSent)];
        step := CodeStep;
        codeSentTo := email;
      } else {
        toasts := toasts + [FailureToast(reply, MsgSendFailed, MsgSendCrashed)];
      }
      loading := false;
    }

    /** `handleVerifyCode` up to its `await`. */
    method StartVerifyCode() returns (call: Call)
      requires Valid() && step == CodeStep && !loading
      modifies this
      ensures Valid() && loading && call == VerifyCodeCall(codeSentTo, code)
      ensures step == old(step) && email == old(email) && code == old(code) && password == old(password)
      ensures toasts == old(toasts) && open == old(open)
    {
      loading := true;
      call := VerifyCodeCall(email, code);
    }

    /** `handleVerifyCode` after its `await`: an ok reply moves to the password step. */
    method FinishVerifyCode(reply: Reply)
      requires Valid() && step == CodeStep && loading
      modifies this
      ensures Valid() && !loading
      ensures email == old(email) && code == old(code) && password == old(password) && open == old(open)
      ensures reply.Ok? ==> step == PasswordStep && toasts == old(toasts) + [Toast(true, MsgCodeConfirmed)]
      ensures !reply.Ok? ==> step == CodeStep && toasts == old(toasts) + [FailureToast(reply, MsgWrongCode, MsgVerifyCrashed)]
    {
      if reply.Ok? {
        toasts := toasts + [Toast(true, MsgCodeConfirmed)];
        step := PasswordStep;
        acceptedCode := code;
      } else {
        toasts := toasts + [FailureToast(reply, MsgWrongCode, MsgVerifyCrashed)];
      }
      loading := false;
    }

    /**
      `handleResetPassword` up to its `await`: a password shorter than six
      characters raises a toast and sends nothing; otherwise the request
      carries the address the code went to and the accepted code.
     */
    method StartResetPassword() returns (call: Option<Call>)
      requires Valid() && step == PasswordStep && !loading
      modifies this
      ensures Valid()
      ensures step == old(step) && email == old(email) && code == old(code) && password == old(password) && open == old(open)
      ensures |password| < MinLength ==> call.None? && !loading && toasts == old(toasts) + [Toast(false, MsgPasswordTooShort)]
      ensures |password| >= MinLength ==>
        call == Some(ResetPasswordCall(codeSentTo, acceptedCode, password)) && loading && toasts == old(toasts)
    {
      if |password| < MinLength {
        toasts := toasts + [Toast(false, MsgPasswordTooShort)];
        return None;
      }
      loading := true;
      call := Some(ResetPasswordCall(email, code, password));
    }

    /** `handleResetPassword` after its `await`: success closes the dialog and starts over. */
    method FinishResetPassword(reply: Reply)
      requires Valid() && step == PasswordStep && loading
      modifies this
      ensures Valid() && !loading
      ensures reply.Ok? ==>
        && !open && step == EmailStep && email == "" && code == "" && password == ""
        && toasts == old(toasts) + [Toast(true, MsgPasswordChanged)]
      ensures !reply.Ok? ==>
        && open == old(open) && step == PasswordStep && email == old(email) && code == old(code) && password == old(password)
        && toasts == old(toasts) + [FailureToast(reply, MsgChangeFailed, MsgChangeCrashed)]
    {
      if reply.Ok? {
        toasts := toasts + [Toast(true, MsgPasswordChanged)];
        open := false;
        step := EmailStep;
        email, code, password := "", "", "";
      } else {
        toasts := toasts + [FailureToast(reply, MsgChangeFailed, MsgChangeCrashed)];
      }
      loading := false;
    }
  }
}
