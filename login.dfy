/**
  Sign-in (src/components/Login.jsx): the translation of the back end's error
  messages and the decision `handleLogin` takes from the two fields and the reply.
*/
module Login {
  import opened Js

  const WrongCredentials := "Usuario o contraseña incorrectos"
  const UnknownUser := "Usuario no encontrado"
  const MissingFields := "Por favor, completa todos los campos"
  const GenericError := "Ocurrió un error. Intenta nuevamente."
  const SignInFailed := "Ocurrió un error durante el inicio de sesión. Por favor, intenta nuevamente."

  /** `traducirMensaje`: the three known English (and one Spanish) messages in Spanish;
      any other non-empty message as it is; a missing or empty one as the generic error. */
  function TraducirMensaje(original: Option<string>): (r: string)
    ensures original == Some("Invalid username or password") ==> r == WrongCredentials
    ensures original == Some("User not found") || original == Some("Usuario no encontrado") ==> r == UnknownUser
    ensures original == Some("Missing fields") ==> r == MissingFields
    ensures original.None? || original == Some("") ==> r == GenericError
    ensures original.Some? && original.value !in KnownMessages && original.value != "" ==> r == original.value
    ensures r != ""
  {
    match original
    case Some("Invalid username or password") => WrongCredentials
    case Some("User not found") => UnknownUser
    case Some("Usuario no encontrado") => UnknownUser
    case Some("Missing fields") => MissingFields
    case Some(m) => if m != "" then m else GenericError
    case None => GenericError
  }

  /** The messages the switch names. */
  const KnownMessages: set<string> :=
    {"Invalid username or password", "User not found", "Usuario no encontrado", "Missing fields"}

  /** Translating an already translated message changes nothing. */
  lemma TranslationIdempotent(original: Option<string>)
    ensures TraducirMensaje(Some(TraducirMensaje(original))) == TraducirMensaje(original)
  {
  }

  /** What the sign-in request gave back: a body with an optional token and message, or a
      thrown error carrying the body's `message`, when there is one. */
  datatype LoginReply =
    | Replied(token: Option<string>, message: Option<string>)
    | Threw(errorMessage: Option<string>)

  /** Where `handleLogin` ends: stopped before the request, signed in with the token to
      store, or refused with the message to show. */
  datatype LoginOutcome = Blocked(message: string) | SignedIn(token: string) | Refused(message: string)

  /** `handleLogin`. The reply is only looked at once both fields are filled in. */
  function HandleLogin(username: string, password: string, reply: LoginReply): (r: LoginOutcome)
    ensures r.Blocked? <==> username == "" || password == ""
    ensures r.Blocked? ==> r.message == MissingFields
    ensures r.SignedIn? <==> username != "" && password != "" && reply.Replied? && reply.token.Some? && reply.token.value != ""
    ensures r.SignedIn? ==> r.token == reply.token.value
    ensures r.Refused? && reply.Replied? ==> r.message == TraducirMensaje(reply.message)
    ensures r.Refused? && reply.Threw? ==>
              r.message == if reply.errorMessage.Some? && reply.errorMessage.value != ""
                           then TraducirMensaje(reply.errorMessage) else SignInFailed
  {
    if username == "" || password == "" then Blocked(MissingFields)
    else match reply
      case Replied(token, message) =>
        if token.Some? && token.value != "" then SignedIn(token.value) else Refused(TraducirMensaje(message))
      case Threw(m) =>
        if m.Some? && m.value != "" then Refused(TraducirMensaje(m)) else Refused(SignInFailed)
  }

  /** An empty field decides the outcome before any request: every reply gives the same. */
  lemma EmptyFieldIgnoresReply(username: string, password: string, a: LoginReply, b: LoginReply)
    requires username == "" || password == ""
    ensures HandleLogin(username, password, a) == HandleLogin(username, password, b) == Blocked(MissingFields)
  {
  }

  /** A message that comes back in an error is always shown translated, never the generic
      sign-in failure, because the `catch` branch only translates non-empty messages. */
  lemma ThrownMessageIsTranslated(username: string, password: string, m: string)
    requires username != "" && password != "" && m != ""
    ensures HandleLogin(username, password, Threw(Some(m))) == Refused(TraducirMensaje(Some(m)))
    ensures m !in KnownMessages ==> HandleLogin(username, password, Threw(Some(m))) == Refused(m)
  {
  }
}
