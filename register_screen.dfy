/**
 * The sign-up screen: the field checks made before anything is sent, the
 * request `register` posts, and the alerts for its outcomes.
 */
module RegisterScreen {
  import opened Wrappers
  import opened JsValues
  import opened ApiClient

  const FieldsRequiredMessage := "Por favor completa todos los campos"
  const PasswordTooShortMessage := "La contraseña debe tener al menos 6 caracteres"
  const RegisteredMessage := "Registro exitoso. Ahora puedes iniciar sesión."
  const RegisterErrorPrefix := "Error al registrarse: "

  /** The shortest password the screen accepts. */
  const MinPasswordLength := 6

  datatype Validation = MissingFields | PasswordTooShort | Proceed

  /** The two checks of `handleSubmit`, the empty-field check first. */
  function ValidateRegistration(name: string, email: string, password: string): (v: Validation)
    ensures v == MissingFields <==> name == "" || email == "" || password == ""
    ensures v == PasswordTooShort <==> name != "" && email != "" && password != "" && |password| < MinPasswordLength
    ensures v == Proceed <==> name != "" && email != "" && |password| >= MinPasswordLength
  {
    if name == "" || email == "" || password == "" then MissingFields
    else if |password| < MinPasswordLength then PasswordTooShort
    else Proceed
  }

  /** A one-character password with a missing name is reported as missing fields, not as too short. */
  lemma EmptyFieldCheckFirst()
    ensures ValidateRegistration("", "a@b.c", "x") == MissingFields
  {
  }

  /** Exactly six characters are enough; five are not. */
  lemma SixCharactersAccepted(name: string, email: string)
    requires name != "" && email != ""
    ensures ValidateRegistration(name, email, "secret") == Proceed
    ensures ValidateRegistration(name, email, "short") == PasswordTooShort
  {
  }

  /** The body `register` posts: the new account always has the role `USER`. */
  datatype RegisterRequest = RegisterRequest(path: string, name: string, role: string, email: string, password: string)

  function RegisterRequestFor(name: string, email: string, password: string): (r: RegisterRequest)
    ensures r.path == RegisterPath && r.role == "USER"
    ensures r.name == name && r.email == email && r.password == password
  {
    RegisterRequest(RegisterPath, name, "USER", email, password)
  }

  /** The request's answer: a response with its status and body message, or a rejection. */
  datatype RegisterReply = RegisterAnswered(status: int, bodyMessage: Option<string>) | RegisterThrown(error: HttpError)

  /**
   * `register` fails on a rejection and on a response with status 400 or
   * 500, whose body it throws; the screen's alert is then the prefix and
   * the message, `undefined` when there is none.
   */
  function RegisterAlert(reply: RegisterReply): (m: string)
    ensures reply.RegisterAnswered? && reply.status != 400 && reply.status != 500 ==> m == RegisteredMessage
    ensures reply.RegisterAnswered? && (reply.status == 400 || reply.status == 500) ==> m == ErrorAlert(reply.bodyMessage)
    ensures reply.RegisterThrown? ==> m == ErrorAlert(OrElse(reply.error.dataMessage, reply.error.message))
  {
    match reply
    case RegisterAnswered(status, body) =>
      if status == 400 || status == 500 then ErrorAlert(body)
      else RegisteredMessage
    case RegisterThrown(e) => ErrorAlert(OrElse(e.dataMessage, e.message))
  }

  /** An error alert: the prefix, then the message as concatenation prints it. */
  function ErrorAlert(message: Option<string>): (m: string)
    ensures |RegisterErrorPrefix| <= |m| && m[..|RegisterErrorPrefix|] == RegisterErrorPrefix
    ensures m[|RegisterErrorPrefix|..] == StringOf(message)
  {
    RegisterErrorPrefix + StringOf(message)
  }

  class RegisterForm {
    var name: string
    var email: string
    var password: string
    var loading: bool

    constructor ()
      ensures name == "" && email == "" && password == "" && !loading
    {
      name := "";
      email := "";
      password := "";
      loading := false;
    }

    /**
     * `handleSubmit`: input that fails a check is reported and nothing is
     * sent; valid input is posted to the register route.
     */
    method HandleSubmit(reply: RegisterReply) returns (request: Option<RegisterRequest>, alert: string)
      modifies this
      ensures name == old(name) && email == old(email) && password == old(password)
      ensures ValidateRegistration(name, email, password) == MissingFields ==>
        request == None && alert == FieldsRequiredMessage && loading == old(loading)
      ensures ValidateRegistration(name, email, password) == PasswordTooShort ==>
        request == None && alert == PasswordTooShortMessage && loading == old(loading)
      ensures ValidateRegistration(name, email, password) == Proceed ==>
        request == Some(RegisterRequestFor(name, email, password)) && alert == RegisterAlert(reply) && !loading
    {
      var v := ValidateRegistration(name, email, password);
      if v == MissingFields {
        return None, FieldsRequiredMessage;
      }
      if v == PasswordTooShort {
        return None, PasswordTooShortMessage;
      }
      loading := true;
      request := Some(RegisterRequestFor(name, email, password));
      alert := RegisterAlert(reply);
      loading := false;
    }
  }
}
