/**
 * The account handlers of the backend: admin registration (RegistroAdmin.py)
 * and the two logins (LoginAdmin.py over the admins table, LoginUsuario.py
 * over the usuarios table). A table keyed by email is a map; registration is
 * a method of the admins table, the logins are functions of a table, which
 * they only read.
 */
module Accounts {
  import opened Common
  import opened Text

  const Domain := "@utec.edu.pe"
  const MinPasswordLength := 6

  const MissingRegistrationFields := "Faltan campos: email, password, nombre"
  const ForeignDomain := "Solo se aceptan emails @utec.edu.pe"
  const ShortPassword := "La contraseña debe tener al menos 6 caracteres"
  const AlreadyRegistered := "El email ya está registrado"
  const AdminRegistered := "Admin registrado exitosamente"
  const MissingLoginFields := "Faltan campos: email, password"
  const BadCredentials := "Email o contraseña incorrectos"
  const LoginSucceeded := "Login exitoso"

  /** A row of the admins or usuarios table. */
  datatype Account = Account(email: string, password: string, nombre: string)

  /** What a reply shows of an account: its email and name, never its password. */
  datatype AccountView = AccountView(email: string, nombre: string)

  function ViewOf(a: Account): AccountView {
    AccountView(a.email, a.nombre)
  }

  /** Which login answered: the account is sent under "admin" or under "usuario". */
  datatype Role = AdminRole | UserRole

  /** The payload of a successful login. */
  datatype Session = Session(role: Role, account: AccountView, token: string)

  /** A table keyed by email. */
  type AccountTable = map<string, Account>

  /** Every row is stored under its own email. */
  predicate KeyedByEmail(t: AccountTable) {
    forall e :: e in t ==> t[e].email == e
  }

  /** The rows registration can create: normalised, in the domain, with a long enough password. */
  predicate WellFormedAdmins(t: AccountTable) {
    forall e :: e in t ==>
      && t[e].email == e
      && NormalizeEmail(e) == e
      && EndsWith(e, Domain)
      && |t[e].password| >= MinPasswordLength && Strip(t[e].password) == t[e].password
      && t[e].nombre != "" && Strip(t[e].nombre) == t[e].nombre
  }

  /** event.get("body", "{}"), decoded when it is a string; None when the result is not a dict. */
  function BodyFields(raw: RawBody): Option<map<string, Json>> {
    match raw
    case Absent => Some(map[])
    case Text(decoded) => if decoded.Some? && decoded.value.JObject? then Some(decoded.value.fields) else None
    case Value(v) => if v.JObject? then Some(v.fields) else None
  }

  /** body.get(name, ""), when it is a string; None when it is not (the .strip() that follows raises). */
  function StringField(body: map<string, Json>, name: string): Option<string> {
    if name !in body then Some("")
    else if body[name].JString? then Some(body[name].str)
    else None
  }

  /** The email as the handlers normalise it: stripped, then lower-cased. */
  function NormalizeEmail(s: string): string {
    Lower(Strip(s))
  }

  /** Normalising an email that is already normalised changes nothing. */
  lemma {:induction false} NormalizeEmailIdempotent(s: string)
    ensures NormalizeEmail(NormalizeEmail(s)) == NormalizeEmail(s)
  {
    var t := Strip(s);
    calc {
      NormalizeEmail(NormalizeEmail(s));
      Lower(Strip(Lower(t)));
      { StripOfLower(t); }
      Lower(Lower(Strip(t)));
      { StripIdempotent(s); }
      Lower(Lower(t));
      { LowerIdempotent(t); }
      Lower(t);
    }
  }

  /**
   * Lines 12-21 of RegistroAdmin.py: the account the body asks for, with the
   * email stripped and lower-cased and the password and name stripped; None
   * when Python raises (the body is not a dict, or a field is not a string).
   */
  function ReadRegistration(raw: RawBody): Option<Account> {
    var body := BodyFields(raw);
    if body.None? then None
    else
      var e, p, n := StringField(body.value, "email"), StringField(body.value, "password"), StringField(body.value, "nombre");
      if e.None? || p.None? || n.None? then None
      else
        Some(Account(NormalizeEmail(e.value), Strip(p.value), Strip(n.value)))
  }

  /** What registration reads is in normal form: normalising it again changes nothing. */
  lemma ReadRegistrationNormalised(raw: RawBody)
    requires ReadRegistration(raw).Some?
    ensures var a := ReadRegistration(raw).value;
      NormalizeEmail(a.email) == a.email && Strip(a.password) == a.password && Strip(a.nombre) == a.nombre
  {
    var body := BodyFields(raw).value;
    NormalizeEmailIdempotent(StringField(body, "email").value);
    StripIdempotent(StringField(body, "password").value);
    StripIdempotent(StringField(body, "nombre").value);
  }

  /**
   * The validation chain of RegistroAdmin.py in its order: missing fields,
   * then the domain, then the password length; None when all pass.
   */
  function RegistrationProblem(a: Account): (r: Option<string>)
    ensures r == Some(MissingRegistrationFields) <==> a.email == "" || a.password == "" || a.nombre == ""
    ensures r == Some(ForeignDomain) <==>
      a.email != "" && a.password != "" && a.nombre != "" && !EndsWith(a.email, Domain)
    ensures r == Some(ShortPassword) <==>
      a.email != "" && a.password != "" && a.nombre != "" && EndsWith(a.email, Domain) && |a.password| < MinPasswordLength
    ensures r == None <==>
      a.email != "" && a.nombre != "" && EndsWith(a.email, Domain) && |a.password| >= MinPasswordLength
  {
    if a.email == "" || a.password == "" || a.nombre == "" then Some(MissingRegistrationFields)
    else if !EndsWith(a.email, Domain) then Some(ForeignDomain)
    else if |a.password| < MinPasswordLength then Some(ShortPassword)
    else None
  }

  /**
   * The reply RegistroAdmin.py gives for a body, against the admins table as
   * it stands; `storeUp` says whether the table answers the get_item and
   * put_item that follow validation (lines 44 and 58).
   */
  function RegistrationReply(admins: AccountTable, raw: RawBody, storeUp: bool): (r: Reply<AccountView>)
    ensures r.status in {201, 400, 409, 500}
    ensures r.status == 500 <==>
      ReadRegistration(raw).None? || (RegistrationProblem(ReadRegistration(raw).value).None? && !storeUp)
    ensures r.status == 400 <==> ReadRegistration(raw).Some? && RegistrationProblem(ReadRegistration(raw).value).Some?
    ensures r.status == 400 ==> r == Failure(400, Message(RegistrationProblem(ReadRegistration(raw).value).value))
    ensures r.status == 409 <==>
      ReadRegistration(raw).Some? && RegistrationProblem(ReadRegistration(raw).value).None?
      && storeUp && ReadRegistration(raw).value.email in admins
    ensures r.status == 409 ==> r == Failure(409, Message(AlreadyRegistered))
    ensures r.Success? <==> r.status == 201
    ensures r.Success? ==> r.mensaje == AdminRegistered && r.value == ViewOf(ReadRegistration(raw).value)
  {
    match ReadRegistration(raw)
    case None => Failure(500, Raised(""))
    case Some(a) =>
      if RegistrationProblem(a).Some? then Failure(400, Message(RegistrationProblem(a).value))
      else if !storeUp then Failure(500, Raised(""))
      else if a.email in admins then Failure(409, Message(AlreadyRegistered))
      else Success(201, AdminRegistered, ViewOf(a))
  }

  /** The admins table of RegistroAdmin.py and LoginAdmin.py. */
  class AdminTable {
    var admins: AccountTable

    constructor ()
      ensures admins == map[]
    {
      admins := map[];
    }

    /**
     * RegistroAdmin.py: validate, refuse a known email, otherwise store the
     * account under its normalised email. Nothing changes on an error.
     */
    method Register(raw: RawBody, storeUp: bool) returns (r: Reply<AccountView>)
      modifies this
      ensures r == RegistrationReply(old(admins), raw, storeUp)
      ensures r.Success? ==>
        var a := ReadRegistration(raw).value;
        a.email !in old(admins) && admins == old(admins)[a.email := a]
      ensures r.Failure? ==> admins == old(admins)
      ensures WellFormedAdmins(old(admins)) ==> WellFormedAdmins(admins)
    {
      var read := ReadRegistration(raw);
      if read.None? {
        return Failure(500, Raised(""));
      }
      var a := read.value;
      var problem := RegistrationProblem(a);
      if problem.Some? {
        return Failure(400, Message(problem.value));
      }
      if !storeUp {
        return Failure(500, Raised(""));
      }
      if a.email in admins {
        return Failure(409, Message(AlreadyRegistered));
      }
      if WellFormedAdmins(admins) {
        RegisterKeepsWellFormed(admins, raw);
      }
      admins := admins[a.email := a];
      r := Success(201, AdminRegistered, ViewOf(a));
    }
  }

  /** The email and password a login body carries, once normalised. */
  datatype Credentials = Credentials(email: string, password: string)

  /** Lines 12-19 of LoginAdmin.py and LoginUsuario.py: the normalised email and the stripped password. */
  function ReadLogin(raw: RawBody): Option<Credentials> {
    var body := BodyFields(raw);
    if body.None? then None
    else
      var e, p := StringField(body.value, "email"), StringField(body.value, "password");
      if e.None? || p.None? then None
      else
        Some(Credentials(NormalizeEmail(e.value), Strip(p.value)))
  }

  /**
   * The login decision shared by LoginAdmin.py and LoginUsuario.py, on the
   * credentials as read; `storeUp` says whether the get_item of line 28
   * answers.
   */
  function Login(role: Role, table: AccountTable, credentials: Option<Credentials>, storeUp: bool): Reply<Session> {
    match credentials
    case None => Failure(500, Raised(""))
    case Some(Credentials(email, password)) =>
      if email == "" || password == "" then Failure(400, Message(MissingLoginFields))
      else if !storeUp then Failure(500, Raised(""))
      else if email !in table then Failure(401, Message(BadCredentials))
      else if table[email].password != password then Failure(401, Message(BadCredentials))
      else Success(200, LoginSucceeded, Session(role, ViewOf(table[email]), email))
  }

  /** The credentials of a body match a row of the table. */
  predicate Matches(table: AccountTable, raw: RawBody) {
    && ReadLogin(raw).Some?
    && var c := ReadLogin(raw).value;
    && c.email != "" && c.password != ""
    && c.email in table && table[c.email].password == c.password
  }

  /** LoginAdmin.py: the reply for a body against the admins table, which it only reads. */
  function LoginAdmin(admins: AccountTable, raw: RawBody, storeUp: bool): (r: Reply<Session>)
    ensures r.status in {200, 400, 401, 500}
    ensures r.status == 500 <==>
      ReadLogin(raw).None? || (ReadLogin(raw).value.email != "" && ReadLogin(raw).value.password != "" && !storeUp)
    ensures r.status == 400 <==> ReadLogin(raw).Some? && (ReadLogin(raw).value.email == "" || ReadLogin(raw).value.password == "")
    ensures r.status == 400 ==> r == Failure(400, Message(MissingLoginFields))
    ensures r.status == 200 <==> storeUp && Matches(admins, raw)
    ensures r.status == 401 ==> r == Failure(401, Message(BadCredentials))
    ensures storeUp && Matches(admins, raw) ==>
      var email := ReadLogin(raw).value.email;
      r == Success(200, LoginSucceeded, Session(AdminRole, ViewOf(admins[email]), email))
  {
    Login(AdminRole, admins, ReadLogin(raw), storeUp)
  }

  /** LoginUsuario.py: the reply for a body against the usuarios table, which it only reads. */
  function LoginUsuario(usuarios: AccountTable, raw: RawBody, storeUp: bool): (r: Reply<Session>)
    ensures r.status in {200, 400, 401, 500}
    ensures r.status == 500 <==>
      ReadLogin(raw).None? || (ReadLogin(raw).value.email != "" && ReadLogin(raw).value.password != "" && !storeUp)
    ensures r.status == 400 <==> ReadLogin(raw).Some? && (ReadLogin(raw).value.email == "" || ReadLogin(raw).value.password == "")
    ensures r.status == 400 ==> r == Failure(400, Message(MissingLoginFields))
    ensures r.status == 200 <==> storeUp && Matches(usuarios, raw)
    ensures r.status == 401 ==> r == Failure(401, Message(BadCredentials))
    ensures storeUp && Matches(usuarios, raw) ==>
      var email := ReadLogin(raw).value.email;
      r == Success(200, LoginSucceeded, Session(UserRole, ViewOf(usuarios[email]), email))
  {
    Login(UserRole, usuarios, ReadLogin(raw), storeUp)
  }

  /**
   * An unknown email and a wrong password for a known one get the same
   * reply, so a caller cannot tell which of the two happened.
   */
  lemma LoginFailuresIndistinguishable(role: Role, table: AccountTable, unknown: Credentials, wrong: Credentials)
    requires unknown.email != "" && unknown.password != "" && unknown.email !in table
    requires wrong.email != "" && wrong.password != "" && wrong.email in table && table[wrong.email].password != wrong.password
    ensures Login(role, table, Some(unknown), true) == Login(role, table, Some(wrong), true) == Failure(401, Message(BadCredentials))
  {
  }

  /** On a table whose rows sit under their own email, the token is the email of the account that logged in. */
  lemma LoginTokenIsAccountEmail(admins: AccountTable, raw: RawBody)
    requires KeyedByEmail(admins)
    requires Matches(admins, raw)
    ensures LoginAdmin(admins, raw, true).value.token == LoginAdmin(admins, raw, true).value.account.email
  {
  }

  /**
   * Registration and login round trip: once a body has registered an admin,
   * logging in with the same body succeeds, shows the registered email and
   * name, and hands out the normalised email as token.
   */
  lemma {:induction false} RegisterThenLogin(admins: AccountTable, raw: RawBody)
    requires RegistrationReply(admins, raw, true).status == 201
    ensures
      var a := ReadRegistration(raw).value;
      LoginAdmin(admins[a.email := a], raw, true) == Success(200, LoginSucceeded, Session(AdminRole, ViewOf(a), a.email))
  {
    var a := ReadRegistration(raw).value;
    assert ReadLogin(raw) == Some(Credentials(a.email, a.password));
    assert Matches(admins[a.email := a], raw);
  }

  /**
   * The stored email and password log in as they are: a login body that
   * carries exactly what registration stored reads back unchanged.
   */
  lemma {:induction false} StoredCredentialsLogIn(admins: AccountTable, email: string)
    requires WellFormedAdmins(admins) && email in admins
    ensures
      var body := Value(JObject(map["email" := JString(email), "password" := JString(admins[email].password)]));
      LoginAdmin(admins, body, true) == Success(200, LoginSucceeded, Session(AdminRole, ViewOf(admins[email]), email))
  {
    var a := admins[email];
    var fields := map["email" := JString(email), "password" := JString(a.password)];
    assert BodyFields(Value(JObject(fields))) == Some(fields);
    assert StringField(fields, "email") == Some(email);
    assert StringField(fields, "password") == Some(a.password);
    assert NormalizeEmail(email) == email && Strip(a.password) == a.password;
    assert ReadLogin(Value(JObject(fields))) == Some(Credentials(email, a.password));
  }

  /** Once an email is registered, every later registration of it is refused with 409. */
  lemma {:induction false} RegisterTwiceConflicts(admins: AccountTable, first: RawBody, second: RawBody)
    requires RegistrationReply(admins, first, true).status == 201
    requires ReadRegistration(second).Some? && RegistrationProblem(ReadRegistration(second).value).None?
    requires ReadRegistration(second).value.email == ReadRegistration(first).value.email
    ensures
      var a := ReadRegistration(first).value;
      RegistrationReply(admins[a.email := a], second, true) == Failure(409, Message(AlreadyRegistered))
  {
  }

  /** A successful registration keeps the table well formed. */
  lemma {:induction false} RegisterKeepsWellFormed(admins: AccountTable, raw: RawBody)
    requires WellFormedAdmins(admins)
    requires RegistrationReply(admins, raw, true).status == 201
    ensures var a := ReadRegistration(raw).value; WellFormedAdmins(admins[a.email := a])
  {
    ReadRegistrationNormalised(raw);
  }

  /** A field that holds only whitespace counts as missing: the body is refused with 400 before any other check. */
  lemma {:induction false} BlankFieldIsMissing(admins: AccountTable, email: string, password: string, nombre: string, storeUp: bool)
    requires forall i :: 0 <= i < |nombre| ==> IsSpace(nombre[i])
    ensures
      var body := JObject(map["email" := JString(email), "password" := JString(password), "nombre" := JString(nombre)]);
      RegistrationReply(admins, Value(body), storeUp) == Failure(400, Message(MissingRegistrationFields))
  {
    var body := JObject(map["email" := JString(email), "password" := JString(password), "nombre" := JString(nombre)]);
    StripFacts(nombre);
    assert ReadRegistration(Value(body)).value.nombre == Strip(nombre) == "";
  }
}
