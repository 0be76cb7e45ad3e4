/**
 * The login and registration form of the admin front-end
 * (front_admin/src/pages/Login.tsx). React state and the two localStorage
 * entries are the fields of a class; each handler is a method. The REST
 * answer is a parameter, and so is JSON.parse, which the page applies to a
 * `body` that arrives as a string.
 */
module AdminLogin {
  import opened Common
  import opened Browser
  import opened Text
  import Accounts

  const Domain := "@utec.edu.pe"
  const ForeignDomain := "Solo se aceptan emails @utec.edu.pe"
  const LoginFailed := "Error al iniciar sesión"
  const RegistrationFailed := "Error al registrarse"

  /** Which of the two forms is shown. */
  datatype Mode = LoginMode | RegistroMode

  function Flip(m: Mode): (r: Mode)
    ensures r != m
  {
    if m == LoginMode then RegistroMode else LoginMode
  }

  /** Toggling twice shows the form that was shown before. */
  lemma FlipTwice(m: Mode)
    ensures Flip(Flip(m)) == m
  {
  }

  /**
   * Lines 31-34 and 75-77: when `data.body` is a string, the data is what
   * JSON.parse makes of it; otherwise the data is unchanged. None when the
   * page throws: the data is null, or the string is not JSON.
   */
  function Unwrap(data: JsValue, parse: string -> Option<Json>): (r: Option<JsValue>)
    ensures Prop(data, "body").None? ==> r.None?
    ensures Prop(data, "body").Some? && !(Prop(data, "body").value.Val? && Prop(data, "body").value.json.JString?) ==>
      r == Some(data)
    ensures Prop(data, "body").Some? && Prop(data, "body").value.Val? && Prop(data, "body").value.json.JString? ==>
      match parse(Prop(data, "body").value.json.str)
      case None => r.None?
      case Some(inner) => r == Some(Val(inner))
  {
    match Prop(data, "body")
    case None => None
    case Some(Val(JString(text))) =>
      (match parse(text)
       case None => None
       case Some(inner) => Some(Val(inner)))
    case Some(_) => Some(data)
  }

  /** The answer has no string `body` to unwrap: it reaches the page directly. */
  predicate Direct(j: Json) {
    j.JObject? && !("body" in j.fields && j.fields["body"].JString?)
  }

  /**
   * Both shapes of an answer give the page the same data: the object itself,
   * and an envelope whose `body` is that object's JSON text.
   */
  lemma {:induction false} UnwrapBothShapes(inner: Json, envelope: map<string, Json>, text: string, parse: string -> Option<Json>)
    requires Direct(inner)
    requires "body" in envelope && envelope["body"] == JString(text) && parse(text) == Some(inner)
    ensures Unwrap(Val(inner), parse) == Some(Val(inner))
    ensures Unwrap(Val(JObject(envelope)), parse) == Some(Val(inner))
  {
  }

  /**
   * What an answer comes to once unwrapped: the data when the response is
   * ok, otherwise the message thrown, `data.error || fallback`.
   */
  function Settle(resp: Response, parse: string -> Option<Json>, fallback: string): (r: Result<JsValue, ErrorText>)
    ensures resp.NetworkFailure? || (resp.Answer? && resp.json.None?) ==> r == Err(EngineMessage)
    ensures r.Ok? <==> resp.Answer? && resp.ok && resp.json.Some? && Unwrap(Val(resp.json.value), parse).Some?
    ensures r.Ok? ==> r == Ok(Unwrap(Val(resp.json.value), parse).value)
    ensures resp.Answer? && !resp.ok && resp.json.Some? && Unwrap(Val(resp.json.value), parse).Some? ==>
      var data := Unwrap(Val(resp.json.value), parse).value;
      && (data == Null ==> r == Err(EngineMessage))
      && (data != Null && JsTruthy(Prop(data, "error").value) ==> r == Err(MessageOf(Prop(data, "error").value)))
      && (data != Null && !JsTruthy(Prop(data, "error").value) ==> r == Err(Literal(fallback)))
  {
    match resp
    case NetworkFailure => Err(EngineMessage)
    case Answer(ok, json) =>
      if json.None? then Err(EngineMessage)
      else
        match Unwrap(Val(json.value), parse)
        case None => Err(EngineMessage)
        case Some(data) =>
          if ok then Ok(data)
          else
            match Prop(data, "error")
            case None => Err(EngineMessage)
            case Some(e) => Err(MessageOf(Or(e, Val(JString(fallback)))))
  }

  /** The body the form posts: `{ email, password }` or `{ email, password, nombre }`. */
  function LoginRequest(email: string, password: string): Json {
    JObject(map["email" := JString(email), "password" := JString(password)])
  }

  function RegistrationRequest(email: string, password: string, nombre: string): Json {
    JObject(map["email" := JString(email), "password" := JString(password), "nombre" := JString(nombre)])
  }

  /** The inputs of the form. */
  datatype Field = Email | Password | Nombre

  /** The form's state, and the browser's storage. */
  class LoginForm {
    var mode: Mode
    var email: string
    var password: string
    var nombre: string
    var error: ErrorText
    var loading: bool
    var storage: map<string, JsValue>

    constructor (stored: map<string, JsValue>)
      ensures mode == LoginMode && email == "" && password == "" && nombre == ""
      ensures error == NoError && !loading && storage == stored
    {
      mode := LoginMode;
      email, password, nombre := "", "", "";
      error := NoError;
      loading := false;
      storage := stored;
    }

    /** An input's onChange. */
    method Edit(field: Field, value: string)
      modifies this
      ensures field == Email ==> email == value && password == old(password) && nombre == old(nombre)
      ensures field == Password ==> password == value && email == old(email) && nombre == old(nombre)
      ensures field == Nombre ==> nombre == value && email == old(email) && password == old(password)
      ensures mode == old(mode) && error == old(error) && loading == old(loading) && storage == old(storage)
    {
      match field {
        case Email => email := value;
        case Password => password := value;
        case Nombre => nombre := value;
      }
    }

    /**
     * `handleLogin`: post the credentials as typed; on success store the
     * admin and the token and hand the admin to `onLoginSuccess`, otherwise
     * show the error. The inputs and the mode are untouched.
     */
    method HandleLogin(resp: Response, parse: string -> Option<Json>) returns (request: Json, loggedIn: Option<JsValue>)
      modifies this
      ensures request == LoginRequest(old(email), old(password))
      ensures !loading
      ensures mode == old(mode) && email == old(email) && password == old(password) && nombre == old(nombre)
      ensures var settled := Settle(resp, parse, LoginFailed);
        && (settled.Err? ==> error == settled.error && loggedIn.None? && storage == old(storage))
        && (settled.Ok? && settled.value == Null ==> error == EngineMessage && loggedIn.None? && storage == old(storage))
        && (settled.Ok? && settled.value != Null ==>
              var admin, token := Prop(settled.value, "admin").value, Prop(settled.value, "token").value;
              && error == NoError && loggedIn == Some(admin)
              && storage == old(storage)["admin" := admin]["token" := token])
    {
      error := NoError;
      loading := true;
      request := LoginRequest(email, password);
      loggedIn := None;
      match Settle(resp, parse, LoginFailed) {
        case Err(e) =>
          error := e;
        case Ok(data) =>
          if data == Null {
            error := EngineMessage;
          } else {
            var admin := Prop(data, "admin").value;
            storage := storage["admin" := admin];
            storage := storage["token" := Prop(data, "token").value];
            loggedIn := Some(admin);
          }
      }
      loading := false;
    }

    /**
     * `handleRegistro`: an email without the domain suffix is refused
     * before any request; otherwise post the form, and on success clear the
     * inputs and the error and switch to the login form.
     */
    method HandleRegistro(resp: Response, parse: string -> Option<Json>) returns (request: Option<Json>)
      modifies this
      ensures !loading && storage == old(storage)
      ensures !EndsWith(old(email), Domain) ==>
        && request.None? && error == Literal(ForeignDomain)
        && mode == old(mode) && email == old(email) && password == old(password) && nombre == old(nombre)
      ensures EndsWith(old(email), Domain) ==>
        && request == Some(RegistrationRequest(old(email), old(password), old(nombre)))
        && var settled := Settle(resp, parse, RegistrationFailed);
        && (settled.Err? ==>
              error == settled.error
              && mode == old(mode) && email == old(email) && password == old(password) && nombre == old(nombre))
        && (settled.Ok? ==> error == NoError && mode == LoginMode && email == "" && password == "" && nombre == "")
    {
      error := NoError;
      loading := true;
      if !EndsWith(email, Domain) {
        error := Literal(ForeignDomain);
        loading := false;
        return None;
      }
      request := Some(RegistrationRequest(email, password, nombre));
      match Settle(resp, parse, RegistrationFailed) {
        case Err(e) =>
          error := e;
        case Ok(_) =>
          email, password, nombre := "", "", "";
          mode := LoginMode;
          error := NoError;
      }
      loading := false;
    }

    /** The link under the form: switch between login and registration and clear the error. */
    method Toggle()
      modifies this
      ensures mode == Flip(old(mode)) && error == NoError
      ensures email == old(email) && password == old(password) && nombre == old(nombre)
      ensures loading == old(loading) && storage == old(storage)
    {
      mode := Flip(mode);
      error := NoError;
    }
  }

  /**
   * The page's suffix test is stricter than the server's domain check: an
   * email the page lets through keeps the suffix once RegistroAdmin.py has
   * stripped and lower-cased it.
   */
  lemma {:induction false} PageSuffixImpliesServerDomain(email: string)
    requires EndsWith(email, Domain)
    ensures EndsWith(Accounts.NormalizeEmail(email), Accounts.Domain)
  {
    DomainIsNormal();
    SuffixSurvivesNormalisation(email, Domain);
  }

  /** The suffix is its own normal form: no capitals, no whitespace at either end. */
  lemma DomainIsNormal()
    ensures Domain != [] && !IsSpace(Domain[0]) && !IsSpace(Domain[|Domain| - 1])
    ensures NoCapitals(Domain)
  {
  }

  /** The domain as an upper-case user may type it. */
  const UpperDomain := "@UTEC.EDU.PE"

  /** Character by character, UpperDomain lower-cases to Domain. */
  lemma UpperDomainLowers()
    ensures |UpperDomain| == |Domain|
    ensures forall i :: 0 <= i < |Domain| ==> LowerChar(UpperDomain[i]) == Domain[i]
  {
  }

  /**
   * The converse fails: the test is case-sensitive and does not trim, so
   * the page refuses every email typed with an upper-case domain, which the
   * server would register.
   */
  lemma {:induction false} UpperCaseEmailRefusedByPage(email: string)
    requires EndsWith(email, UpperDomain)
    ensures !EndsWith(email, Domain)
    ensures EndsWith(Accounts.NormalizeEmail(email), Accounts.Domain)
  {
    assert email[|email| - |Domain| + 1] == 'U';
    UpperDomainLowers();
    var t := TrimStart(email);
    TrimStartKeepsSuffix(email, UpperDomain);
    TrimStartFacts(email);
    assert t[|t| - 1] == 'E';
    assert TrimEnd(t) == t;
    var l := Lower(t);
    LowerFacts(t);
    var n := |t| - |Domain|;
    forall i | 0 <= i < |Domain| ensures l[n + i] == Domain[i] {
      assert t[n + i] == UpperDomain[i];
    }
    assert l[n..] == Domain;
  }
}
