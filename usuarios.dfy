/** The user accounts: the normalisation and checks of `registrar_usuario`, the id it
    hands out, the password-free listing, the field patch of `actualizar_usuario`, the
    filter of `eliminar_usuario` and the credential lookup of `login_usuario`. */
module Usuarios {
  import opened Common

  /** One entry of `usuarios.json`; `rol` is absent unless the file was edited by hand. */
  datatype User = User(id: int, nombre: string, email: string, password: string, rol: Option<string>)

  /** What the listing and the other answers show of a user: never the password. */
  datatype PublicUser = PublicUser(id: int, nombre: string, email: string)

  /** The string fields of a request body; None when the key is absent. */
  datatype UsuarioDatos = UsuarioDatos(nombre: Option<string>, email: Option<string>, contrasena: Option<string>)

  const CamposObligatorios := "Todos los campos son obligatorios"
  const EmailInvalido := "Email inválido"
  const EmailRegistrado := "El email ya está registrado"
  const UsuarioNoEncontrado := "Usuario no encontrado"
  const LoginCamposObligatorios := "Email y contraseña son obligatorios"
  const CredencialesInvalidas := "Usuario no encontrado o credenciales inválidas"
  const RolPorDefecto := "admin"

  /** No two users share an id. */
  predicate UniqueIds(us: seq<User>) {
    forall i, j | 0 <= i < j < |us| :: us[i].id != us[j].id
  }

  /** No two users share an email. */
  predicate UniqueEmails(us: seq<User>) {
    forall i, j | 0 <= i < j < |us| :: us[i].email != us[j].email
  }

  /** `.strip().lower()`, the normal form of names and emails. */
  function Normal(s: string): string {
    Lower(Strip(s))
  }

  predicate HasAt(email: string) {
    '@' in email
  }

  // ---------- registrar_usuario ----------

  /** `max([u["id"] for u in usuarios], default=0)`. */
  function MaxId(us: seq<User>): (m: int)
    ensures forall u | u in us :: u.id <= m
    ensures us == [] ==> m == 0
    ensures us != [] ==> exists u | u in us :: u.id == m
  {
    if us == [] then 0
    else if |us| == 1 then us[0].id
    else
      var m := MaxId(us[..|us| - 1]);
      assert forall u | u in us :: u in us[..|us| - 1] || u == us[|us| - 1];
      if us[|us| - 1].id > m then us[|us| - 1].id else m
  }

  /** `registrar_usuario`: normalise the three fields, reject an empty one, an email
      without '@' and an email already in use, then add a user whose id is one above the
      largest. */
  function RegistrarUsuario(us: seq<User>, d: UsuarioDatos): (r: Result<User>)
    ensures var nombre := Normal(d.nombre.GetOr(""));
            var email := Normal(d.email.GetOr(""));
            var pass := Strip(d.contrasena.GetOr(""));
            && (r.Ok? <==> nombre != "" && email != "" && pass != "" && HasAt(email)
                           && forall u | u in us :: u.email != email)
            && (nombre == "" || email == "" || pass == "" ==> r == Err(CamposObligatorios))
            && (nombre != "" && email != "" && pass != "" && !HasAt(email) ==> r == Err(EmailInvalido))
            && ((nombre != "" && email != "" && pass != "" && HasAt(email)
                 && (exists u | u in us :: u.email == email)) ==> r == Err(EmailRegistrado))
            && (r.Err? ==> r.error in {CamposObligatorios, EmailInvalido, EmailRegistrado})
            && (r.Ok? ==> r.value == User(MaxId(us) + 1, nombre, email, pass, None))
    ensures r.Ok? ==> forall u | u in us :: u.id < r.value.id && u.email != r.value.email
  {
    var nombre := Normal(d.nombre.GetOr(""));
    var email := Normal(d.email.GetOr(""));
    var pass := Strip(d.contrasena.GetOr(""));
    if nombre == "" || email == "" || pass == "" then Err(CamposObligatorios)
    else if !HasAt(email) then Err(EmailInvalido)
    else if exists u | u in us :: u.email == email then Err(EmailRegistrado)
    else Ok(User(MaxId(us) + 1, nombre, email, pass, None))
  }

  /** Registration keeps ids unique, and emails too when they were. */
  lemma RegistrationKeepsUnique(us: seq<User>, d: UsuarioDatos)
    requires UniqueIds(us)
    requires RegistrarUsuario(us, d).Ok?
    ensures UniqueIds(us + [RegistrarUsuario(us, d).value])
    ensures UniqueEmails(us) ==> UniqueEmails(us + [RegistrarUsuario(us, d).value])
  {
    var n := RegistrarUsuario(us, d).value;
    var vs := us + [n];
    forall i, j | 0 <= i < j < |vs|
      ensures vs[i].id != vs[j].id && (UniqueEmails(us) ==> vs[i].email != vs[j].email)
    {
      assert vs[i] == us[i];
      if j == |us| {
        assert vs[i] in us;
      } else {
        assert vs[j] == us[j];
      }
    }
  }

  // ---------- obtener_usuarios ----------

  function Publico(u: User): PublicUser {
    PublicUser(u.id, u.nombre, u.email)
  }

  /** `obtener_usuarios`: the same users in the same order, each as id, name and email. */
  function ObtenerUsuarios(us: seq<User>): (r: seq<PublicUser>)
    ensures |r| == |us|
    ensures forall i | 0 <= i < |us| :: r[i].id == us[i].id && r[i].nombre == us[i].nombre
                                        && r[i].email == us[i].email
  {
    seq(|us|, i requires 0 <= i < |us| => Publico(us[i]))
  }

  // ---------- actualizar_usuario ----------

  /** `data.get(field, old).strip()` (and `.lower()` for name and email): a field the body
      carries replaces the old one, normalised; an absent one is normalised in place. */
  function Actualizado(u: User, d: UsuarioDatos): (v: User)
    ensures v.id == u.id && v.rol == u.rol
    ensures v.nombre == Normal(d.nombre.GetOr(u.nombre))
    ensures v.email == Normal(d.email.GetOr(u.email))
    ensures v.password == Strip(d.contrasena.GetOr(u.password))
  {
    User(u.id, Normal(d.nombre.GetOr(u.nombre)), Normal(d.email.GetOr(u.email)),
         Strip(d.contrasena.GetOr(u.password)), u.rol)
  }

  /** An update keeps the ids of all users, so it keeps them unique. */
  lemma UpdateKeepsUniqueIds(us: seq<User>, i: nat, d: UsuarioDatos)
    requires i < |us| && UniqueIds(us)
    ensures UniqueIds(us[i := Actualizado(us[i], d)])
  {
    var vs := us[i := Actualizado(us[i], d)];
    assert forall k | 0 <= k < |us| :: vs[k].id == us[k].id;
  }

  /** Lowering and stripping a stored name, email or password changes nothing when it
      is already normal, so an empty update is idempotent. */
  lemma EmptyUpdateIdempotent(u: User)
    ensures var e := UsuarioDatos(None, None, None);
      Actualizado(Actualizado(u, e), e) == Actualizado(u, e)
  {
    NormalIdempotent(u.nombre);
    NormalIdempotent(u.email);
    StripIdempotent(u.password);
  }

  /** Lowering a character never turns whitespace into text or the reverse. */
  lemma LowerKeepsSpace(c: char)
    ensures IsSpace(LowerChar(c)) <==> IsSpace(c)
  {
  }

  /** Normalising twice is normalising once. */
  lemma NormalIdempotent(s: string)
    ensures Normal(Normal(s)) == Normal(s)
  {
    var t := Strip(s);
    var l := Lower(t);
    if l != [] {
      LowerKeepsSpace(t[0]);
      LowerKeepsSpace(t[|t| - 1]);
    }
    StripTrimmed(l);
    LowerIdempotent(t);
  }

  /** An update does not re-check emails: changing the second of two users to the first
      one's email is accepted and leaves two users with one email. */
  lemma UpdateCanDuplicateEmail(a: User, b: User)
    requires a.email == Normal(a.email) && a.email != b.email
    ensures UniqueEmails([a, b])
    ensures !UniqueEmails([a, Actualizado(b, UsuarioDatos(None, Some(a.email), None))])
  {
    NormalIdempotent(a.email);
    var c := Actualizado(b, UsuarioDatos(None, Some(a.email), None));
    assert c.email == a.email;
    assert [a, c][0].email == [a, c][1].email;
  }

  // ---------- eliminar_usuario ----------

  /** `eliminar_usuario`: every user with the id goes; "not found" exactly when none has it. */
  function EliminarUsuario(us: seq<User>, id: int): (r: Result<seq<User>>)
    ensures r.Err? <==> forall i | 0 <= i < |us| :: us[i].id != id
    ensures r.Err? ==> r.error == UsuarioNoEncontrado
    ensures r.Ok? ==> |r.value| < |us|
    ensures r.Ok? ==> forall u :: u in r.value <==> u in us && u.id != id
    ensures r.Ok? ==> r.value == Filter(us, (u: User) => u.id != id)
  {
    var keep := Filter(us, (u: User) => u.id != id);
    FilterSubset(us, (u: User) => u.id != id);
    FilterComplete(us, (u: User) => u.id != id);
    if |keep| == |us| then Err(UsuarioNoEncontrado) else Ok(keep)
  }

  /** Deleting keeps ids unique, and emails too when they were. */
  lemma {:induction false} DeleteKeepsUnique(us: seq<User>, id: int)
    requires UniqueIds(us)
    ensures UniqueIds(Filter(us, (u: User) => u.id != id))
    ensures UniqueEmails(us) ==> UniqueEmails(Filter(us, (u: User) => u.id != id))
  {
    if us != [] {
      var p := (u: User) => u.id != id;
      var emails := UniqueEmails(us);
      assert forall i, j | 0 <= i < j < |us[1..]| :: us[1..][i] == us[i + 1] && us[1..][j] == us[j + 1];
      DeleteKeepsUnique(us[1..], id);
      FilterSubset(us[1..], p);
      var rest := Filter(us[1..], p);
      assert forall u | u in rest :: u.id != us[0].id && (emails ==> u.email != us[0].email) by {
        forall u | u in rest ensures u.id != us[0].id && (emails ==> u.email != us[0].email) {
          var k :| 0 <= k < |us[1..]| && us[1..][k] == u;
          assert us[k + 1] == u;
        }
      }
      if p(us[0]) {
        assert Filter(us, p) == [us[0]] + rest;
        ConsKeepsUnique(us[0], rest, emails);
      }
    }
  }

  /** Putting a user in front of a list keeps ids (and emails) unique when no entry of the
      list shares them with it. */
  lemma ConsKeepsUnique(x: User, rest: seq<User>, emails: bool)
    requires UniqueIds(rest) && (emails ==> UniqueEmails(rest))
    requires forall u | u in rest :: u.id != x.id && (emails ==> u.email != x.email)
    ensures UniqueIds([x] + rest) && (emails ==> UniqueEmails([x] + rest))
  {
    var vs := [x] + rest;
    forall i, j | 0 <= i < j < |vs|
      ensures vs[i].id != vs[j].id && (emails ==> vs[i].email != vs[j].email)
    {
      assert vs[j] == rest[j - 1];
      if i > 0 {
        assert vs[i] == rest[i - 1];
      } else {
        assert vs[j] in rest;
      }
    }
  }

  // ---------- login_usuario ----------

  /** The answer of `login_usuario`. */
  datatype LoginOutcome =
    | Rejected(status: int, error: string)
    | LoggedIn(id: int, nombre: string, email: string, rol: string)

  predicate Credentials(u: User, email: string, pass: string) {
    u.email == email && u.password == pass
  }

  /** `login_usuario`: normalise, reject empty fields and an email without '@' (400),
      then answer with the first user holding both credentials, or 401. */
  function Login(us: seq<User>, d: UsuarioDatos): (r: LoginOutcome)
    ensures var email := Normal(d.email.GetOr(""));
            var pass := Strip(d.contrasena.GetOr(""));
            && (email == "" || pass == "" ==> r == Rejected(400, LoginCamposObligatorios))
            && (email != "" && pass != "" && !HasAt(email) ==> r == Rejected(400, EmailInvalido))
            && (r.LoggedIn? <==> email != "" && pass != "" && HasAt(email)
                                 && exists u | u in us :: Credentials(u, email, pass))
            && (r.Rejected? && email != "" && pass != "" && HasAt(email) ==> r == Rejected(401, CredencialesInvalidas))
    ensures r.LoggedIn? ==> exists i | 0 <= i < |us| ::
              && Credentials(us[i], Normal(d.email.GetOr("")), Strip(d.contrasena.GetOr("")))
              && (forall k | 0 <= k < i :: !Credentials(us[k], Normal(d.email.GetOr("")), Strip(d.contrasena.GetOr(""))))
              && r == LoggedIn(us[i].id, us[i].nombre, us[i].email, us[i].rol.GetOr(RolPorDefecto))
  {
    var email := Normal(d.email.GetOr(""));
    var pass := Strip(d.contrasena.GetOr(""));
    if email == "" || pass == "" then Rejected(400, LoginCamposObligatorios)
    else if !HasAt(email) then Rejected(400, EmailInvalido)
    else match FirstIndex(us, (u: User) => Credentials(u, email, pass))
      case None =>
        assert forall u | u in us :: !Credentials(u, email, pass);
        Rejected(401, CredencialesInvalidas)
      case Some(i) => LoggedIn(us[i].id, us[i].nombre, us[i].email, us[i].rol.GetOr(RolPorDefecto))
  }

  /** A user just registered can log in with the same email and password and is shown
      with the default role, provided no earlier user holds the same credentials (which
      the email check on registration ensures). */
  lemma RegisteredUserCanLogIn(us: seq<User>, d: UsuarioDatos)
    requires RegistrarUsuario(us, d).Ok?
    ensures var n := RegistrarUsuario(us, d).value;
      Login(us + [n], UsuarioDatos(None, d.email, d.contrasena)) == LoggedIn(n.id, n.nombre, n.email, RolPorDefecto)
  {
    var n := RegistrarUsuario(us, d).value;
    var email := Normal(d.email.GetOr(""));
    var pass := Strip(d.contrasena.GetOr(""));
    NormalIdempotent(d.email.GetOr(""));
    StripIdempotent(d.contrasena.GetOr(""));
    assert n.email == email && n.password == pass && n.rol.None?;
    LoginFindsOnlyMatch(us, n, email, pass, UsuarioDatos(None, d.email, d.contrasena));
  }

  /** When only the last user holds the credentials, login answers with that user. */
  lemma {:induction false} LoginFindsOnlyMatch(us: seq<User>, n: User, email: string, pass: string, e: UsuarioDatos)
    requires email == Normal(e.email.GetOr("")) && pass == Strip(e.contrasena.GetOr(""))
    requires email != "" && pass != "" && HasAt(email)
    requires forall u | u in us :: u.email != email
    requires Credentials(n, email, pass)
    ensures Login(us + [n], e) == LoggedIn(n.id, n.nombre, n.email, n.rol.GetOr(RolPorDefecto))
  {
    var vs := us + [n];
    assert vs[|us|] == n;
    forall j | 0 <= j < |us| ensures !Credentials(vs[j], email, pass) {
      assert vs[j] == us[j] && us[j] in us;
    }
    var r := Login(vs, e);
    assert r.LoggedIn?;
    var i :| 0 <= i < |vs| && Credentials(vs[i], email, pass)
             && r == LoggedIn(vs[i].id, vs[i].nombre, vs[i].email, vs[i].rol.GetOr(RolPorDefecto));
    assert i == |us|;
  }
}
