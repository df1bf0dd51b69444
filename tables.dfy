/** The tables the authentication handlers read and write, as values: a row of
    `general_dim_usuario`, the join with `general_dim_sucursal`, the condition a row must meet to
    be issued a token, the claims that go into the token, and the partial UPDATE of the four
    profile columns that PUT /me performs. */
module Tables {
  import opened Bcrypt

  datatype Option<+T> = None | Some(value: T)

  /** `general_dim_usuario.id`, a UUID string; also the identity carried by a token. */
  type Id = string
  /** `general_dim_sucursal.id`. */
  type BranchId = int

  /** The application id that login and refresh require an entitlement for. */
  const APP_ID: int := 2
  /** The `id_estado` of an active user. */
  const ACTIVE: int := 1

  /** One row of `general_dim_usuario` (its `id` is the key of the map that holds it).
      `apellido_materno` may be NULL; the other text columns are filled by registration. */
  datatype UserRow = UserRow(
    usuario: string,
    nombre: string,
    apellidoPaterno: string,
    apellidoMaterno: Option<string>,
    correo: string,
    clave: PasswordHash,
    idSucursalActiva: BranchId,
    idEstado: int,
    idRol: int,
    idPerfil: int,
    fechaCreacion: nat)

  /** The WHERE clause shared by the login and refresh queries, minus the key they look up by:
      the row exists, is active, and has an entitlement for application 2. */
  predicate Qualifies(users: map<Id, UserRow>, appAccess: set<(Id, int)>, id: Id)
  {
    id in users && users[id].idEstado == ACTIVE && (id, APP_ID) in appAccess
  }

  /** The rows the login query can return for a username. */
  function LoginCandidates(users: map<Id, UserRow>, appAccess: set<(Id, int)>, usuario: string): (ids: set<Id>)
    ensures forall id :: id in ids <==> Qualifies(users, appAccess, id) && users[id].usuario == usuario
  {
    set id | id in users && users[id].usuario == usuario && Qualifies(users, appAccess, id)
  }

  /** `LEFT JOIN general_dim_sucursal s ON u.id_sucursalactiva = s.id`: the branch name, or
      NULL when no branch row matches. */
  function BranchName(branches: map<BranchId, string>, b: BranchId): (name: Option<string>)
    ensures name.Some? <==> b in branches
    ensures name.Some? ==> name.value == branches[b]
  {
    if b in branches then Some(branches[b]) else None
  }

  /** The additional claims of an access token: role, profile, active branch and its name. */
  datatype Claims = Claims(rol: int, perfil: int, sucursal: BranchId, sucursalNombre: Option<string>)

  /** An access token, unsigned: the identity it is issued to and its claims. */
  datatype AccessToken = AccessToken(identity: Id, claims: Claims)

  /** The claims login and refresh both build from the row they found. */
  function ClaimsOf(row: UserRow, branches: map<BranchId, string>): (c: Claims)
    ensures c.rol == row.idRol && c.perfil == row.idPerfil
    ensures c.sucursal == row.idSucursalActiva
    ensures c.sucursalNombre == BranchName(branches, row.idSucursalActiva)
  {
    Claims(row.idRol, row.idPerfil, row.idSucursalActiva, BranchName(branches, row.idSucursalActiva))
  }

  // ---------------------------------------------------------------------------------------
  // The partial update of PUT /me

  /** The four columns PUT /me may set, in the order the handler tests them. */
  datatype Column = Nombre | ApellidoPaterno | ApellidoMaterno | Correo

  function Rank(c: Column): nat
  {
    match c
    case Nombre => 0
    case ApellidoPaterno => 1
    case ApellidoMaterno => 2
    case Correo => 3
  }

  /** Each column appears at most once, in the handler's order. */
  predicate Ascending(cs: seq<Column>)
  {
    forall i, j :: 0 <= i < j < |cs| ==> Rank(cs[i]) < Rank(cs[j])
  }

  /** The value a row holds in an editable column. */
  function ColumnValue(row: UserRow, c: Column): Option<string>
  {
    match c
    case Nombre => Some(row.nombre)
    case ApellidoPaterno => Some(row.apellidoPaterno)
    case ApellidoMaterno => row.apellidoMaterno
    case Correo => Some(row.correo)
  }

  /** One `column = %s` assignment of the SET list. */
  function Assign(row: UserRow, c: Column, v: string): (r: UserRow)
    ensures ColumnValue(r, c) == Some(v)
    ensures forall d :: d != c ==> ColumnValue(r, d) == ColumnValue(row, d)
    ensures Fixed(r) == Fixed(row)
  {
    match c
    case Nombre => row.(nombre := v)
    case ApellidoPaterno => row.(apellidoPaterno := v)
    case ApellidoMaterno => row.(apellidoMaterno := Some(v))
    case Correo => row.(correo := v)
  }

  /** The columns PUT /me can never change. */
  datatype FixedColumns = FixedColumns(
    usuario: string, clave: PasswordHash, idSucursalActiva: BranchId,
    idEstado: int, idRol: int, idPerfil: int, fechaCreacion: nat)

  function Fixed(row: UserRow): FixedColumns
  {
    FixedColumns(row.usuario, row.clave, row.idSucursalActiva, row.idEstado, row.idRol,
                 row.idPerfil, row.fechaCreacion)
  }

  /** Two rows agreeing on the fixed columns and on every editable column are the same row. */
  lemma RowExtensionality(a: UserRow, b: UserRow)
    requires Fixed(a) == Fixed(b)
    requires forall c :: ColumnValue(a, c) == ColumnValue(b, c)
    ensures a == b
  {
    assert ColumnValue(a, Nombre) == ColumnValue(b, Nombre);
    assert ColumnValue(a, ApellidoPaterno) == ColumnValue(b, ApellidoPaterno);
    assert ColumnValue(a, ApellidoMaterno) == ColumnValue(b, ApellidoMaterno);
    assert ColumnValue(a, Correo) == ColumnValue(b, Correo);
  }

  /** `UPDATE ... SET c0 = v0, c1 = v1, ...` on one row: the assignments in order. */
  function ApplySet(row: UserRow, cs: seq<Column>, vs: seq<string>): UserRow
    requires |cs| == |vs|
    decreases |cs|
  {
    if cs == [] then row else ApplySet(Assign(row, cs[0], vs[0]), cs[1..], vs[1..])
  }

  /** An UPDATE leaves the fixed columns and every column outside its SET list as they were. */
  lemma {:induction false} ApplySetKeepsOthers(row: UserRow, cs: seq<Column>, vs: seq<string>, c: Column)
    requires |cs| == |vs|
    ensures Fixed(ApplySet(row, cs, vs)) == Fixed(row)
    ensures c !in cs ==> ColumnValue(ApplySet(row, cs, vs), c) == ColumnValue(row, c)
    decreases |cs|
  {
    if cs != [] {
      ApplySetKeepsOthers(Assign(row, cs[0], vs[0]), cs[1..], vs[1..], c);
    }
  }

  /** With each column named once, every column of the SET list ends up holding its value. */
  lemma {:induction false} ApplySetWrites(row: UserRow, cs: seq<Column>, vs: seq<string>, i: nat)
    requires |cs| == |vs| && Ascending(cs) && i < |cs|
    ensures ColumnValue(ApplySet(row, cs, vs), cs[i]) == Some(vs[i])
    decreases |cs|
  {
    var next := Assign(row, cs[0], vs[0]);
    if i == 0 {
      assert cs[0] !in cs[1..] by {
        forall k | 0 <= k < |cs[1..]| ensures cs[1..][k] != cs[0] {
          assert Rank(cs[0]) < Rank(cs[k + 1]);
        }
      }
      ApplySetKeepsOthers(next, cs[1..], vs[1..], cs[0]);
    } else {
      ApplySetWrites(next, cs[1..], vs[1..], i - 1);
    }
  }

  /** The fields a PUT /me body may carry; `None` is a key that is absent or JSON null. */
  datatype ProfileUpdate = ProfileUpdate(
    nombre: Option<string>, apellidoPaterno: Option<string>,
    apellidoMaterno: Option<string>, correo: Option<string>)

  /** The request field for a column. */
  function Field(req: ProfileUpdate, c: Column): Option<string>
  {
    match c
    case Nombre => req.nombre
    case ApellidoPaterno => req.apellidoPaterno
    case ApellidoMaterno => req.apellidoMaterno
    case Correo => req.correo
  }

  /** A SET list and its parameters built for a request: exactly the columns whose field is not
      `None`, in the handler's order, each paired with the field's value, and the user id bound to
      the final `WHERE id = %s` placeholder. */
  predicate SetListFor(req: ProfileUpdate, usuarioId: Id, campos: seq<Column>, valores: seq<string>)
  {
    && |valores| == |campos| + 1
    && valores[|campos|] == usuarioId
    && Ascending(campos)
    && (forall c :: c in campos <==> Field(req, c).Some?)
    && (forall i :: 0 <= i < |campos| ==> Field(req, campos[i]) == Some(valores[i]))
  }

  /** The row PUT /me is meant to leave: each column whose field was sent holds the sent value,
      every other column is as it was. */
  function UpdatedRow(row: UserRow, req: ProfileUpdate): (r: UserRow)
    ensures Fixed(r) == Fixed(row)
    ensures forall c :: ColumnValue(r, c) == if Field(req, c).Some? then Field(req, c) else ColumnValue(row, c)
  {
    row.(
      nombre := if req.nombre.Some? then req.nombre.value else row.nombre,
      apellidoPaterno := if req.apellidoPaterno.Some? then req.apellidoPaterno.value else row.apellidoPaterno,
      apellidoMaterno := if req.apellidoMaterno.Some? then req.apellidoMaterno else row.apellidoMaterno,
      correo := if req.correo.Some? then req.correo.value else row.correo)
  }

  /** Executing a SET list built for a request yields exactly the intended row. */
  lemma SetListApplies(row: UserRow, req: ProfileUpdate, usuarioId: Id, campos: seq<Column>, valores: seq<string>)
    requires SetListFor(req, usuarioId, campos, valores)
    ensures ApplySet(row, campos, valores[..|campos|]) == UpdatedRow(row, req)
  {
    var vs := valores[..|campos|];
    var after := ApplySet(row, campos, vs);
    forall c ensures ColumnValue(after, c) == ColumnValue(UpdatedRow(row, req), c) {
      ApplySetKeepsOthers(row, campos, vs, c);
      if c in campos {
        var i :| 0 <= i < |campos| && campos[i] == c;
        ApplySetWrites(row, campos, vs, i);
      }
    }
    ApplySetKeepsOthers(row, campos, vs, Nombre);
    RowExtensionality(after, UpdatedRow(row, req));
  }

  /** Two ascending column lists with the same members are the same list. */
  lemma {:induction false} AscendingUnique(a: seq<Column>, b: seq<Column>)
    requires Ascending(a) && Ascending(b)
    requires forall c :: c in a <==> c in b
    ensures a == b
    decreases |a|
  {
    if a == [] {
      if b != [] {
        NonEmptyHasMember(b);
        assert false;
      }
    } else {
      assert a[0] in b;
      assert b[0] in a;
      AscendingHeadLeast(a, b[0]);
      AscendingHeadLeast(b, a[0]);
      assert Rank(a[0]) == Rank(b[0]);
      forall c ensures c in a[1..] <==> c in b[1..] {
        AscendingTail(a, c);
        AscendingTail(b, c);
      }
      AscendingUnique(a[1..], b[1..]);
    }
  }

  /** A non-empty list has a member. Called where the facts in scope already contradict each
      other, so that no indexing of `b` is checked there. */
  lemma NonEmptyHasMember(b: seq<Column>)
    requires b != []
    ensures exists c :: c in b
  {
    assert b[0] in b;
  }

  /** The head of an ascending list has the least rank of its members. */
  lemma AscendingHeadLeast(a: seq<Column>, c: Column)
    requires Ascending(a) && c in a
    ensures Rank(a[0]) <= Rank(c)
  {
    var k :| 0 <= k < |a| && a[k] == c;
    if k > 0 {
      assert Rank(a[0]) < Rank(a[k]);
    }
  }

  /** In an ascending list, the tail holds everything but the head. */
  lemma AscendingTail(a: seq<Column>, c: Column)
    requires Ascending(a) && a != []
    ensures c in a[1..] <==> c in a && c != a[0]
  {
    if c in a[1..] {
      var k :| 0 <= k < |a[1..]| && a[1..][k] == c;
      assert Rank(a[0]) < Rank(a[k + 1]);
    }
    if c in a && c != a[0] {
      var k :| 0 <= k < |a| && a[k] == c;
      assert a[1..][k - 1] == c;
    }
  }

  /** A request determines its SET list and parameters: SetListFor leaves no freedom. */
  lemma SetListUnique(req: ProfileUpdate, usuarioId: Id, c1: seq<Column>, v1: seq<string>, c2: seq<Column>, v2: seq<string>)
    requires SetListFor(req, usuarioId, c1, v1) && SetListFor(req, usuarioId, c2, v2)
    ensures c1 == c2 && v1 == v2
  {
    AscendingUnique(c1, c2);
    forall i | 0 <= i < |v1| ensures v1[i] == v2[i] {
      if i < |c1| {
        assert Field(req, c1[i]) == Some(v1[i]) && Field(req, c2[i]) == Some(v2[i]);
      }
    }
  }
}
