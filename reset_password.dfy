/** The ResetPasswordPage form: two password fields, the `token` query
    parameter, and the message and loading state its submit handler sets. */
module ResetPassword {
  import opened Js

  const MismatchMessage: string := "Las contraseñas no coinciden"
  const BadTokenMessage: string := "Token inválido"
  const SuccessMessage: string := "✅ Contraseña restablecida con éxito"
  const FailureMessage: string := "❌ Hubo un error al restablecer la contraseña"

  /** The `resetPassword(token, newPassword)` call. */
  datatype ResetRequest = ResetRequest(token: string, newPassword: string)

  class ResetPasswordPage {
    /** `searchParams.get('token')`. */
    const token: Option<string>
    var newPassword: string
    var confirm: string
    var message: string
    var loading: bool

    constructor (token: Option<string>)
      ensures this.token == token
      ensures newPassword == "" && confirm == "" && message == "" && !loading
    {
      this.token := token;
      newPassword, confirm, message, loading := "", "", "", false;
    }

    method SetNewPassword(value: string)
      modifies this`newPassword
      ensures newPassword == value
    {
      newPassword := value;
    }

    method SetConfirm(value: string)
      modifies this`confirm
      ensures confirm == value
    {
      confirm := value;
    }

    /** `handleSubmit` up to the request. The passwords are compared before
      the token is looked at; a request is made only with equal passwords
      and a token, and then the form is loading. */
    method Submit() returns (request: Option<ResetRequest>)
      modifies this`message, this`loading
      ensures newPassword != confirm ==> request == None && message == MismatchMessage && loading == old(loading)
      ensures newPassword == confirm && !Present(token) ==> request == None && message == BadTokenMessage && loading == old(loading)
      ensures request.Some? <==> newPassword == confirm && Present(token)
      ensures request.Some? ==> request.value == ResetRequest(token.value, newPassword) && loading && message == old(message)
    {
      if newPassword != confirm {
        message := MismatchMessage;
        return None;
      }
      if !Present(token) {
        message := BadTokenMessage;
        return None;
      }
      loading := true;
      request := Some(ResetRequest(token.value, newPassword));
    }

    /** The rest of `handleSubmit` once the request settles. */
    method Settle(ok: bool)
      modifies this`message, this`loading
      ensures !loading
      ensures message == (if ok then SuccessMessage else FailureMessage)
    {
      if ok {
        message := SuccessMessage;
      } else {
        message := FailureMessage;
      }
      loading := false;
    }
  }
}
