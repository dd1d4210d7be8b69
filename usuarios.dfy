/**
  Sign-up (src/components/Usuarios/RegisterUser.jsx): the three field checks,
  the error map they rebuild on every attempt, the field update, and the guard
  that keeps an invalid form from reaching the register service.
*/
module Usuarios {
  import opened Js

  const UsernameError := "El nombre de usuario debe tener al menos 3 caracteres."
  const PasswordError := "La contraseña debe tener al menos 6 caracteres."
  const EmailError := "Por favor, ingresa un correo electrónico válido."

  // ------------------------------------------------------------ e-mail shape

  /** `s[i..j]` is a non-empty run of non-space characters (`\S+`). */
  predicate NonSpaceRun(s: string, i: int, j: int) {
    0 <= i < j <= |s| && forall k :: i <= k < j ==> !IsSpace(s[k])
  }

  /** `s[i..j]` is a word of `\S+@\S+\.\S+`, with its `@` at `a` and its `.` at `b`. */
  ghost predicate MatchAt(s: string, i: int, a: int, b: int, j: int) {
    0 <= i < a < b < j <= |s|
    && NonSpaceRun(s, i, a) && s[a] == '@' && NonSpaceRun(s, a + 1, b) && s[b] == '.' && NonSpaceRun(s, b + 1, j)
  }

  /** `/\S+@\S+\.\S+/.test(s)`: the pattern is not anchored, so any substring may match. */
  ghost predicate RegexMatches(s: string) {
    exists i, a, b, j :: MatchAt(s, i, a, b, j)
  }

  /** The check as it can be run: an `@` with a non-space before it, then, after at least
      one more non-space, a `.` followed by a non-space, with no space in between. */
  predicate AtThenDot(s: string, a: int, b: int) {
    1 <= a && a + 1 < b && b + 1 < |s|
    && !IsSpace(s[a - 1]) && s[a] == '@' && (forall k :: a < k < b ==> !IsSpace(s[k]))
    && s[b] == '.' && !IsSpace(s[b + 1])
  }

  predicate EmailOk(s: string) {
    exists a, b | 0 <= a < b < |s| :: AtThenDot(s, a, b)
  }

  /** The runnable check accepts exactly the texts the regular expression matches. */
  lemma EmailOkIffRegexMatches(s: string)
    ensures EmailOk(s) <==> RegexMatches(s)
  {
    if EmailOk(s) {
      var a, b :| 0 <= a < b < |s| && AtThenDot(s, a, b);
      assert MatchAt(s, a - 1, a, b, b + 2);
    }
    if RegexMatches(s) {
      var i, a, b, j :| MatchAt(s, i, a, b, j);
      assert AtThenDot(s, a, b);
    }
  }

  // ------------------------------------------------------------ errors

  /** The error map `validateInputs` builds from empty: one entry per failed rule,
      each depending on its own field only. */
  function ErrorsFor(username: string, password: string, email: string): (r: map<string, string>)
    ensures "username" in r <==> Utf16Length(username) < 3
    ensures "password" in r <==> Utf16Length(password) < 6
    ensures "email" in r <==> !EmailOk(email)
    ensures r.Keys <= {"username", "password", "email"}
    ensures "username" in r ==> r["username"] == UsernameError
    ensures "password" in r ==> r["password"] == PasswordError
    ensures "email" in r ==> r["email"] == EmailError
  {
    var none: map<string, string> := map[];
    var u := if Utf16Length(username) < 3 then none["username" := UsernameError] else none;
    var p := if Utf16Length(password) < 6 then u["password" := PasswordError] else u;
    if !EmailOk(email) then p["email" := EmailError] else p
  }

  /** No error is recorded exactly when all three rules hold. */
  lemma NoErrorsIffAllRulesHold(username: string, password: string, email: string)
    ensures ErrorsFor(username, password, email) == map[] <==>
              Utf16Length(username) >= 3 && Utf16Length(password) >= 6 && RegexMatches(email)
  {
    EmailOkIffRegexMatches(email);
    var r := ErrorsFor(username, password, email);
    if Utf16Length(username) < 3 { assert "username" in r; }
    if Utf16Length(password) < 6 { assert "password" in r; }
    if !EmailOk(email) { assert "email" in r; }
  }

  /** The rules count `.length` in UTF-16 units: three emoji make a six-unit password. */
  lemma EmojiPasswordLongEnough()
    ensures "password" !in ErrorsFor("ana", "\U{1F600}\U{1F600}\U{1F600}", "a@b.c")
    ensures "password" in ErrorsFor("ana", "abcde", "a@b.c")
  {
  }

  // ------------------------------------------------------------ server reply

  /** What `registrarUsuario` gave back: a body (with or without a `message`), `null`,
      or a thrown error. */
  datatype RegisterReply = Body(message: Option<string>) | NullBody | Threw

  datatype Notice = Success(text: string) | Failure(text: string)

  const Registered := "¡Usuario registrado con éxito!"
  const RegisterFailed := "Error al registrar el usuario"
  const ServerDown := "Error en el servidor. Por favor, intenta más tarde."

  /** The toast `handleSubmit` shows once the request was made. Reading `message` of a
      `null` body throws, which lands in the same branch as a failed request. */
  function SubmitNotice(reply: RegisterReply): (n: Notice)
    ensures n.Success? <==> reply.Body? && reply.message.Some? && reply.message.value != ""
    ensures n.Success? ==> n.text == Registered
    ensures reply.Body? && n.Failure? ==> n.text == RegisterFailed  // never the server's own text
    ensures !reply.Body? ==> n == Failure(ServerDown)
  {
    match reply
    case Body(m) =>
      if m.Some? && m.value != "" then Success(Registered)
      else Failure(RegisterFailed)  // `data.message || …` with a missing or empty message
    case NullBody => Failure(ServerDown)
    case Threw => Failure(ServerDown)
  }

  // ------------------------------------------------------------ screen state

  class RegisterUser {
    var formData: map<string, string>
    var errors: map<string, string>
    /** The forms handed to `registrarUsuario`, oldest first. */
    var registrations: seq<map<string, string>>

    /** The three inputs always have a value. */
    ghost predicate Valid()
      reads this
    {
      "username" in formData && "password" in formData && "email" in formData
    }

    constructor()
      ensures Valid() && errors == map[] && registrations == []
      ensures formData == map["username" := "", "password" := "", "email" := ""]
    {
      formData := map["username" := "", "password" := "", "email" := ""];
      errors := map[];
      registrations := [];
    }

    /** `validateInputs`: the error map is rebuilt from empty and stored; the result says
        whether it is empty. */
    method ValidateInputs() returns (ok: bool)
      requires Valid()
      modifies this`errors
      ensures errors == ErrorsFor(formData["username"], formData["password"], formData["email"])
      ensures ok <==> Utf16Length(formData["username"]) >= 3 && Utf16Length(formData["password"]) >= 6 && RegexMatches(formData["email"])
    {
      var newErrors: map<string, string> := map[];
      if Utf16Length(formData["username"]) < 3 {
        newErrors := newErrors["username" := UsernameError];
      }
      if Utf16Length(formData["password"]) < 6 {
        newErrors := newErrors["password" := PasswordError];
      }
      if !EmailOk(formData["email"]) {
        newErrors := newErrors["email" := EmailError];
      }
      errors := newErrors;
      ok := |newErrors| == 0;
      NoErrorsIffAllRulesHold(formData["username"], formData["password"], formData["email"]);
      assert ok <==> newErrors == map[];
    }

    /** `handleChange`: the named field takes the typed value; the others keep theirs. */
    method HandleChange(name: string, value: string)
      requires Valid()
      modifies this`formData
      ensures Valid()
      ensures formData == old(formData)[name := value]
      ensures forall k :: k != name && k in old(formData) ==> k in formData && formData[k] == old(formData)[k]
    {
      formData := formData[name := value];
    }

    /** `handleSubmit`: a form that fails validation never reaches the service; a valid
        one is sent once and the reply decides the toast. */
    method HandleSubmit(reply: RegisterReply) returns (notice: Option<Notice>)
      requires Valid()
      modifies this`errors, this`registrations
      ensures errors == ErrorsFor(formData["username"], formData["password"], formData["email"])
      ensures errors != map[] ==> notice == None && registrations == old(registrations)
      ensures errors == map[] ==> notice == Some(SubmitNotice(reply)) && registrations == old(registrations) + [formData]
    {
      var ok := ValidateInputs();
      NoErrorsIffAllRulesHold(formData["username"], formData["password"], formData["email"]);
      if !ok {
        return None;
      }
      registrations := registrations + [formData];
      notice := Some(SubmitNotice(reply));
    }
  }
}
