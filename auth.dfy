/** The request handlers of the authentication blueprint, as methods of an in-memory credential
    store. The store holds the four tables the handlers touch: users (`general_dim_usuario`),
    branch names (`general_dim_sucursal`), application entitlements (`usuario_pivot_app_usuario`)
    and branch entitlements (`usuario_pivot_sucursal_usuario`). Only the user table is ever
    written. The identity a handler reads from its token, the salt bcrypt draws, the id `UUID()`
    produces and today's date are parameters. */
module Auth {
  import opened Bcrypt
  import opened Tables

  const REGISTER_MISSING := "Correo, clave, usuario, nombre, apellido paterno y sucursal son requeridos"
  const REGISTERED := "Usuario registrado correctamente"
  const LOGIN_MISSING := "Faltan datos de usuario o clave"
  const BAD_CREDENTIALS := "Usuario o clave incorrectos"
  const REFRESH_DENIED := "Usuario no encontrado o sin acceso"
  const PASSWORD_MISSING := "Faltan datos de clave"
  const WRONG_PASSWORD := "Clave actual incorrecta"
  const PASSWORD_CHANGED := "Clave actualizada correctamente"
  const BRANCH_MISSING := "El ID de la sucursal es requerido"
  const BRANCH_FORBIDDEN := "No tienes acceso a esta sucursal"
  const BRANCH_CHANGED := "Sucursal actualizada correctamente"
  const USER_NOT_FOUND := "Usuario no encontrado"
  const UPDATE_EMPTY := "Al menos un campo debe ser proporcionado para actualizar"
  const PROFILE_UPDATED := "Información del usuario actualizada correctamente"

  /** What GET /me returns: every column of the user row except `clave`, plus the branch name. */
  datatype ProfileView = ProfileView(
    id: Id, usuario: string, nombre: string, apellidoPaterno: string,
    apellidoMaterno: Option<string>, correo: string, idSucursalActiva: BranchId,
    idEstado: int, idRol: int, idPerfil: int, fechaCreacion: nat,
    sucursalNombre: Option<string>)

  /** The JSON bodies the handlers answer with. A session carries an access token only. */
  datatype Body =
    | Message(message: string)
    | Error(error: string)
    | Session(accessToken: AccessToken, usuario: string, idSucursal: BranchId,
              sucursalNombre: Option<string>, idRol: int, idPerfil: int)
    | BranchSwitched(message: string, idSucursal: BranchId, sucursalNombre: Option<string>)
    | Profile(profile: ProfileView)

  datatype Reply = Reply(status: int, body: Body)

  /** Python truthiness of a JSON string field: present, not null, not empty. */
  predicate Present(s: Option<string>)
  {
    s.Some? && s.value != ""
  }

  /** Python truthiness of a JSON number field: present, not null, not zero. */
  predicate PresentId(n: Option<int>)
  {
    n.Some? && n.value != 0
  }

  /** The body of POST /register. `idEstado`, `idRol` and `idPerfil` are `None` when the key is
      absent, in which case the defaults apply. */
  datatype RegisterRequest = RegisterRequest(
    correo: Option<string>, clave: Option<string>, usuario: Option<string>,
    nombre: Option<string>, apellidoPaterno: Option<string>, apellidoMaterno: Option<string>,
    idSucursalActiva: Option<int>, idEstado: Option<int>, idRol: Option<int>,
    idPerfil: Option<int>)

  /** Every required registration field is truthy; `apellido_materno` is optional. */
  predicate RegisterValid(req: RegisterRequest)
  {
    && Present(req.correo) && Present(req.clave) && Present(req.usuario)
    && Present(req.nombre) && Present(req.apellidoPaterno) && PresentId(req.idSucursalActiva)
  }

  /** The row POST /register inserts. */
  function NewRow(kdf: Kdf, req: RegisterRequest, salt: Salt, today: nat): (row: UserRow)
    requires RegisterValid(req)
    ensures CheckPw(kdf, req.clave.value, row.clave) && row.clave.salt == salt
    ensures row.usuario == req.usuario.value && row.correo == req.correo.value
    ensures row.nombre == req.nombre.value && row.apellidoPaterno == req.apellidoPaterno.value
    ensures row.apellidoMaterno == req.apellidoMaterno
    ensures row.idSucursalActiva == req.idSucursalActiva.value && row.fechaCreacion == today
    ensures row.idEstado == (if req.idEstado.Some? then req.idEstado.value else ACTIVE)
    ensures row.idRol == (if req.idRol.Some? then req.idRol.value else 3)
    ensures row.idPerfil == (if req.idPerfil.Some? then req.idPerfil.value else 1)
  {
    UserRow(
      usuario := req.usuario.value,
      nombre := req.nombre.value,
      apellidoPaterno := req.apellidoPaterno.value,
      apellidoMaterno := req.apellidoMaterno,
      correo := req.correo.value,
      clave := HashPw(kdf, req.clave.value, salt),
      idSucursalActiva := req.idSucursalActiva.value,
      idEstado := if req.idEstado.Some? then req.idEstado.value else ACTIVE,
      idRol := if req.idRol.Some? then req.idRol.value else 3,
      idPerfil := if req.idPerfil.Some? then req.idPerfil.value else 1,
      fechaCreacion := today)
  }

  /** Both login fields are truthy. */
  predicate LoginInputValid(usuario: Option<string>, clave: Option<string>)
  {
    Present(usuario) && Present(clave)
  }

  /** Row `id` is one the login query can return for `usuario`, and its hash accepts `clave`. */
  predicate Authenticates(kdf: Kdf, users: map<Id, UserRow>, appAccess: set<(Id, int)>,
                          usuario: string, clave: string, id: Id)
  {
    id in LoginCandidates(users, appAccess, usuario) && CheckPw(kdf, clave, users[id].clave)
  }

  /** The success body of login and refresh for the row found: a token issued to the row's id
      whose claims agree with the profile fields sent beside it. */
  function SessionFor(users: map<Id, UserRow>, branches: map<BranchId, string>, id: Id): (b: Body)
    requires id in users
    ensures b.Session?
    ensures b.accessToken.identity == id
    ensures b.accessToken.claims == ClaimsOf(users[id], branches)
    ensures b.usuario == users[id].usuario
    ensures b.idSucursal == b.accessToken.claims.sucursal
    ensures b.sucursalNombre == b.accessToken.claims.sucursalNombre
    ensures b.idRol == b.accessToken.claims.rol && b.idPerfil == b.accessToken.claims.perfil
  {
    var row := users[id];
    Session(AccessToken(id, ClaimsOf(row, branches)), row.usuario, row.idSucursalActiva,
            BranchName(branches, row.idSucursalActiva), row.idRol, row.idPerfil)
  }

  /** The row GET /me returns, joined with its branch name; the password hash is not part of it. */
  function ProfileOf(users: map<Id, UserRow>, branches: map<BranchId, string>, id: Id): (v: ProfileView)
    requires id in users
    ensures v.id == id
    ensures v.usuario == users[id].usuario && v.correo == users[id].correo
    ensures v.nombre == users[id].nombre && v.apellidoPaterno == users[id].apellidoPaterno
    ensures v.apellidoMaterno == users[id].apellidoMaterno
    ensures v.idSucursalActiva == users[id].idSucursalActiva
    ensures v.idEstado == users[id].idEstado && v.idRol == users[id].idRol
    ensures v.idPerfil == users[id].idPerfil && v.fechaCreacion == users[id].fechaCreacion
    ensures v.sucursalNombre == BranchName(branches, users[id].idSucursalActiva)
  {
    var row := users[id];
    ProfileView(id, row.usuario, row.nombre, row.apellidoPaterno, row.apellidoMaterno, row.correo,
                row.idSucursalActiva, row.idEstado, row.idRol, row.idPerfil, row.fechaCreacion,
                BranchName(branches, row.idSucursalActiva))
  }

  /** At least one PUT /me field is truthy. */
  predicate AnyPresent(req: ProfileUpdate)
  {
    Present(req.nombre) || Present(req.apellidoPaterno) || Present(req.apellidoMaterno) || Present(req.correo)
  }

  /** The SET list built so far once the fields of the first `k` columns have been tested. */
  ghost predicate BuiltUpTo(req: ProfileUpdate, k: nat, campos: seq<Column>, valores: seq<string>)
  {
    && |valores| == |campos|
    && Ascending(campos)
    && (forall c :: c in campos <==> Rank(c) < k && Field(req, c).Some?)
    && (forall i :: 0 <= i < |campos| ==> Field(req, campos[i]) == Some(valores[i]))
  }

  /** Testing the field of column `c` extends the list built for the columns before it. */
  lemma BuiltStep(req: ProfileUpdate, c: Column, campos: seq<Column>, valores: seq<string>)
    requires BuiltUpTo(req, Rank(c), campos, valores)
    ensures Field(req, c).Some? ==>
              BuiltUpTo(req, Rank(c) + 1, campos + [c], valores + [Field(req, c).value])
    ensures Field(req, c).None? ==> BuiltUpTo(req, Rank(c) + 1, campos, valores)
  {
    assert forall d :: Rank(d) == Rank(c) ==> d == c;
    if Field(req, c).Some? {
      var cs, vs := campos + [c], valores + [Field(req, c).value];
      forall i, j | 0 <= i < j < |cs| ensures Rank(cs[i]) < Rank(cs[j]) {
        if j == |campos| {
          assert cs[i] in campos;
        }
      }
    }
  }

  /** Once all four columns are tested, appending the user id completes the parameters. */
  lemma BuiltComplete(req: ProfileUpdate, usuarioId: Id, campos: seq<Column>, valores: seq<string>)
    requires BuiltUpTo(req, 4, campos, valores)
    ensures SetListFor(req, usuarioId, campos, valores + [usuarioId])
  {
    var vs := valores + [usuarioId];
    assert forall i :: 0 <= i < |campos| ==> vs[i] == valores[i];
  }

  /** PUT /me's construction of the SET list and its parameters, by successive appends: each
      field that is not `None` (an empty string included) adds its column and its value, and the
      user id is appended last for the WHERE clause. */
  method BuildUpdate(req: ProfileUpdate, usuarioId: Id) returns (campos: seq<Column>, valores: seq<string>)
    ensures SetListFor(req, usuarioId, campos, valores)
    ensures AnyPresent(req) ==> campos != []
  {
    campos, valores := [], [];
    BuiltStep(req, Nombre, campos, valores);
    if req.nombre.Some? {
      campos := campos + [Nombre];
      valores := valores + [req.nombre.value];
    }
    BuiltStep(req, ApellidoPaterno, campos, valores);
    if req.apellidoPaterno.Some? {
      campos := campos + [ApellidoPaterno];
      valores := valores + [req.apellidoPaterno.value];
    }
    BuiltStep(req, ApellidoMaterno, campos, valores);
    if req.apellidoMaterno.Some? {
      campos := campos + [ApellidoMaterno];
      valores := valores + [req.apellidoMaterno.value];
    }
    BuiltStep(req, Correo, campos, valores);
    if req.correo.Some? {
      campos := campos + [Correo];
      valores := valores + [req.correo.value];
    }
    BuiltComplete(req, usuarioId, campos, valores);
    valores := valores + [usuarioId];
  }

  /** Login and refresh admit the same rows: refresh accepts an id exactly when the login query
      returns that row for its own username. */
  lemma LoginAndRefreshAdmitSameRows(users: map<Id, UserRow>, appAccess: set<(Id, int)>, id: Id)
    ensures Qualifies(users, appAccess, id) <==> exists u :: id in LoginCandidates(users, appAccess, u)
  {
    if Qualifies(users, appAccess, id) {
      assert id in LoginCandidates(users, appAccess, users[id].usuario);
    }
  }

  /** A registration with a username nobody else has, whose row is active and which has been
      granted application 2 separately, can log in with the password it registered: its row is
      the only one the login query returns, and that row accepts the password. */
  lemma RegisteredUserLogsIn(kdf: Kdf, users: map<Id, UserRow>, appAccess: set<(Id, int)>,
                             req: RegisterRequest, newId: Id, salt: Salt, today: nat)
    requires RegisterValid(req) && newId !in users
    requires forall id :: id in users ==> users[id].usuario != req.usuario.value
    requires (newId, APP_ID) in appAccess
    requires req.idEstado.None? || req.idEstado.value == ACTIVE
    ensures var after := users[newId := NewRow(kdf, req, salt, today)];
            && LoginCandidates(after, appAccess, req.usuario.value) == {newId}
            && Authenticates(kdf, after, appAccess, req.usuario.value, req.clave.value, newId)
  {
    var after := users[newId := NewRow(kdf, req, salt, today)];
    var found := LoginCandidates(after, appAccess, req.usuario.value);
    assert newId in found;
    forall id | id in found ensures id == newId {
      assert id in after && after[id].usuario == req.usuario.value;
    }
  }

  /** Registration grants no application entitlement: unless one is already on record for the new
      id, the rows the login query can return are the same after the insert as before it. */
  lemma RegistrationGrantsNoLogin(kdf: Kdf, users: map<Id, UserRow>, appAccess: set<(Id, int)>,
                                  req: RegisterRequest, newId: Id, salt: Salt, today: nat, u: string)
    requires RegisterValid(req) && newId !in users
    requires (newId, APP_ID) !in appAccess
    ensures LoginCandidates(users[newId := NewRow(kdf, req, salt, today)], appAccess, u)
            == LoginCandidates(users, appAccess, u)
  {
    var after := users[newId := NewRow(kdf, req, salt, today)];
    forall id ensures id in LoginCandidates(after, appAccess, u) <==> id in LoginCandidates(users, appAccess, u) {
      if id != newId && id in users {
        assert after[id] == users[id];
      }
    }
  }

  class CredentialStore {
    var users: map<Id, UserRow>
    var branches: map<BranchId, string>
    var appAccess: set<(Id, int)>
    var branchAccess: set<(Id, BranchId)>
    const kdf: Kdf

    constructor (kdf: Kdf, users: map<Id, UserRow>, branches: map<BranchId, string>,
                 appAccess: set<(Id, int)>, branchAccess: set<(Id, BranchId)>)
      ensures this.kdf == kdf && this.users == users && this.branches == branches
      ensures this.appAccess == appAccess && this.branchAccess == branchAccess
    {
      this.kdf := kdf;
      this.users := users;
      this.branches := branches;
      this.appAccess := appAccess;
      this.branchAccess := branchAccess;
    }

    /** POST /register. `newId` stands for `UUID()`, `salt` for `bcrypt.gensalt()` and `today`
        for `date.today()`. */
    method Register(req: RegisterRequest, newId: Id, salt: Salt, today: nat) returns (r: Reply)
      requires newId !in users
      modifies this`users
      ensures r.status == 400 <==> !RegisterValid(req)
      ensures !RegisterValid(req) ==> r.body == Error(REGISTER_MISSING) && users == old(users)
      ensures RegisterValid(req) ==> r == Reply(201, Message(REGISTERED))
      ensures RegisterValid(req) ==> users == old(users)[newId := NewRow(kdf, req, salt, today)]
    {
      if !RegisterValid(req) {
        return Reply(400, Error(REGISTER_MISSING));
      }
      users := users[newId := NewRow(kdf, req, salt, today)];
      r := Reply(201, Message(REGISTERED));
    }

    /** POST /login. The query may match several rows when usernames repeat; the handler takes
        whichever the database returns first, and checks the password against that one only. */
    method Login(usuario: Option<string>, clave: Option<string>) returns (r: Reply)
      ensures r.status == 400 <==> !LoginInputValid(usuario, clave)
      ensures r.status == 400 ==> r.body == Error(LOGIN_MISSING)
      ensures r.status == 401 ==> r.body == Error(BAD_CREDENTIALS)
      ensures r.status in {200, 400, 401}
      ensures r.status == 200 ==>
        && LoginInputValid(usuario, clave)
        && exists id :: Authenticates(kdf, users, appAccess, usuario.value, clave.value, id)
                        && r.body == SessionFor(users, branches, id)
      ensures LoginInputValid(usuario, clave)
              && (forall id :: !Authenticates(kdf, users, appAccess, usuario.value, clave.value, id))
              ==> r.status == 401
      ensures LoginInputValid(usuario, clave)
              && LoginCandidates(users, appAccess, usuario.value) != {}
              && (forall id :: id in LoginCandidates(users, appAccess, usuario.value) ==>
                                 CheckPw(kdf, clave.value, users[id].clave))
              ==> r.status == 200
    {
      if !LoginInputValid(usuario, clave) {
        return Reply(400, Error(LOGIN_MISSING));
      }
      var found := LoginCandidates(users, appAccess, usuario.value);
      if found == {} {
        return Reply(401, Error(BAD_CREDENTIALS));
      }
      var id :| id in found;
      if !CheckPw(kdf, clave.value, users[id].clave) {
        return Reply(401, Error(BAD_CREDENTIALS));
      }
      r := Reply(200, SessionFor(users, branches, id));
    }

    /** POST /refresh: the row is looked up again by the token's identity, with the same active
        and entitlement conditions as login, and the claims are rebuilt from it. */
    method Refresh(identity: Id) returns (r: Reply)
      ensures Qualifies(users, appAccess, identity) ==> r == Reply(200, SessionFor(users, branches, identity))
      ensures !Qualifies(users, appAccess, identity) ==> r == Reply(401, Error(REFRESH_DENIED))
    {
      if !Qualifies(users, appAccess, identity) {
        return Reply(401, Error(REFRESH_DENIED));
      }
      r := Reply(200, SessionFor(users, branches, identity));
    }

    /** POST /cambiar-clave. The user's status and entitlements are not consulted. */
    method CambiarClave(usuarioId: Id, claveActual: Option<string>, nuevaClave: Option<string>, salt: Salt)
      returns (r: Reply)
      modifies this`users
      ensures !Present(claveActual) || !Present(nuevaClave) ==>
                r == Reply(400, Error(PASSWORD_MISSING)) && users == old(users)
      ensures Present(claveActual) && Present(nuevaClave)
              && (usuarioId !in old(users) || !CheckPw(kdf, claveActual.value, old(users)[usuarioId].clave))
              ==> r == Reply(401, Error(WRONG_PASSWORD)) && users == old(users)
      ensures Present(claveActual) && Present(nuevaClave)
              && usuarioId in old(users) && CheckPw(kdf, claveActual.value, old(users)[usuarioId].clave)
              ==> && r == Reply(200, Message(PASSWORD_CHANGED))
                  && users == old(users)[usuarioId := old(users)[usuarioId].(clave := HashPw(kdf, nuevaClave.value, salt))]
                  && CheckPw(kdf, nuevaClave.value, users[usuarioId].clave)
    {
      if !Present(claveActual) || !Present(nuevaClave) {
        return Reply(400, Error(PASSWORD_MISSING));
      }
      if usuarioId !in users || !CheckPw(kdf, claveActual.value, users[usuarioId].clave) {
        return Reply(401, Error(WRONG_PASSWORD));
      }
      var hash := HashPw(kdf, nuevaClave.value, salt);
      users := users[usuarioId := users[usuarioId].(clave := hash)];
      r := Reply(200, Message(PASSWORD_CHANGED));
    }

    /** POST /cambiar-sucursal. The UPDATE is issued whether or not the user row still exists,
        and the reply is 200 either way. */
    method CambiarSucursal(usuarioId: Id, idSucursal: Option<int>) returns (r: Reply)
      modifies this`users
      ensures !PresentId(idSucursal) ==> r == Reply(400, Error(BRANCH_MISSING)) && users == old(users)
      ensures PresentId(idSucursal) && (usuarioId, idSucursal.value) !in branchAccess ==>
                r == Reply(403, Error(BRANCH_FORBIDDEN)) && users == old(users)
      ensures PresentId(idSucursal) && (usuarioId, idSucursal.value) in branchAccess ==>
                && r == Reply(200, BranchSwitched(BRANCH_CHANGED, idSucursal.value, BranchName(branches, idSucursal.value)))
                && users == if usuarioId in old(users)
                            then old(users)[usuarioId := old(users)[usuarioId].(idSucursalActiva := idSucursal.value)]
                            else old(users)
    {
      if !PresentId(idSucursal) {
        return Reply(400, Error(BRANCH_MISSING));
      }
      var b := idSucursal.value;
      if (usuarioId, b) !in branchAccess {
        return Reply(403, Error(BRANCH_FORBIDDEN));
      }
      if usuarioId in users {
        users := users[usuarioId := users[usuarioId].(idSucursalActiva := b)];
      }
      r := Reply(200, BranchSwitched(BRANCH_CHANGED, b, BranchName(branches, b)));
    }

    /** GET /me. */
    method ObtenerUsuarioActual(usuarioId: Id) returns (r: Reply)
      ensures usuarioId !in users ==> r == Reply(404, Error(USER_NOT_FOUND))
      ensures usuarioId in users ==> r == Reply(200, Profile(ProfileOf(users, branches, usuarioId)))
    {
      if usuarioId !in users {
        return Reply(404, Error(USER_NOT_FOUND));
      }
      r := Reply(200, Profile(ProfileOf(users, branches, usuarioId)));
    }

    /** Executes `UPDATE general_dim_usuario SET <campos> WHERE id = %s` with its parameters bound
        in order; answers the number of rows matched. */
    method ExecuteUpdate(campos: seq<Column>, valores: seq<string>) returns (rowcount: nat)
      requires campos != [] && |valores| == |campos| + 1
      modifies this`users
      ensures var id := valores[|campos|];
              && rowcount == (if id in old(users) then 1 else 0)
              && users == if id in old(users)
                          then old(users)[id := ApplySet(old(users)[id], campos, valores[..|campos|])]
                          else old(users)
    {
      var id := valores[|campos|];
      if id in users {
        users := users[id := ApplySet(users[id], campos, valores[..|campos|])];
        rowcount := 1;
      } else {
        rowcount := 0;
      }
    }

    /** PUT /me. */
    method ActualizarUsuarioActual(usuarioId: Id, req: ProfileUpdate) returns (r: Reply)
      modifies this`users
      ensures !AnyPresent(req) ==> r == Reply(400, Error(UPDATE_EMPTY)) && users == old(users)
      ensures AnyPresent(req) && usuarioId !in old(users) ==>
                r == Reply(404, Error(USER_NOT_FOUND)) && users == old(users)
      ensures AnyPresent(req) && usuarioId in old(users) ==>
                && r == Reply(200, Message(PROFILE_UPDATED))
                && users == old(users)[usuarioId := UpdatedRow(old(users)[usuarioId], req)]
    {
      if !AnyPresent(req) {
        return Reply(400, Error(UPDATE_EMPTY));
      }
      var campos, valores := BuildUpdate(req, usuarioId);
      if usuarioId in users {
        SetListApplies(users[usuarioId], req, usuarioId, campos, valores);
      }
      var rowcount := ExecuteUpdate(campos, valores);
      if rowcount == 0 {
        return Reply(404, Error(USER_NOT_FOUND));
      }
      r := Reply(200, Message(PROFILE_UPDATED));
    }
  }
}
