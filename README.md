# Authentication blueprint: a Dafny model

This project models the request handlers of the authentication and user-management service
(`blueprints/auth.py`). The handlers are:

- `register`
- `login`
- `refresh`
- `cambiar_clave` (change password)
- `cambiar_sucursal` (switch active branch)
- `obtener_usuario_actual` (GET /me)
- `actualizar_usuario_actual` (PUT /me)

The handlers are methods of a class, `Auth.CredentialStore`, which holds the four tables they
touch:

- `users`: `general_dim_usuario`, keyed by the user's UUID.
- `branches`: `general_dim_sucursal`, branch id to name.
- `appAccess`: `usuario_pivot_app_usuario`, (user, application) pairs.
- `branchAccess`: `usuario_pivot_sucursal_usuario`, (user, branch) pairs.

Every handler modifies at most `users` (`modifies this`users`), so the other three tables are
unchanged by construction. Each handler returns a `Reply`: a status code and a JSON body. Error
bodies carry the source's exact messages.

Files:

- `bcrypt.dfy` (module `Bcrypt`): `hashpw` and `checkpw`. bcrypt's key-derivation function is a
  parameter `kdf`, held by the store as a constant. Every fact proved here therefore holds for
  any function bcrypt may compute. A stored hash is a salt plus a digest. The `clave` column has
  this type, so it holds only what `HashPw` produces, never the request's password string.
  Whether the digest reveals the password depends on `kdf`, which is not constrained.
- `tables.dfy` (module `Tables`): the rows and the condition login and refresh share: active
  (`id_estado = 1`) and entitled to application 2. Also the LEFT JOIN to the branch name, the
  token claims, and the partial UPDATE of PUT /me with its proofs.
- `auth.dfy` (module `Auth`): request and reply datatypes, the handlers, and lemmas that
  relate them.
- `scenarios.dfy` (module `Scenarios`): two clients that follow a registration through to login
  and refresh, using only the handlers' contracts.

Behaviour of the code that the model keeps, including where it differs from what one might
expect:

- Login returns the same 401 body, "Usuario o clave incorrectos", in two cases: no qualifying
  row, and a qualifying row whose hash rejects the password.
- Registration inserts no application entitlement. A freshly registered user is refused by login
  until application 2 is granted elsewhere (`RegistrationGrantsNoLogin`,
  `Scenarios.RegisterThenLogin`). A register-then-login example that expects success does not
  hold of this code.
- The login response carries an access token and no refresh token. `Body.Session` has no field
  for one.
- `cambiar_clave` checks neither `id_estado` nor entitlements.
- `cambiar_sucursal` answers 200 even when the user row no longer exists. In that case the
  UPDATE matches nothing.
- PUT /me requires at least one truthy field. It then writes every field that is not null, so an
  empty string is written when it is sent beside a truthy field. For example,
  `{"nombre": "", "correo": "a@b"}` blanks `nombre`.

## Model

| member | source | states |
|---|---|---|
| `Bcrypt.HashPw` | blueprints/auth.py:33-34 | the stored hash keeps the salt it was made with and is accepted by `checkpw` for the password hashed |
| `Auth.NewRow` | blueprints/auth.py:18-44 | the inserted row's hash is salted and verifies `clave`. Estado, rol and perfil default to 1, 3 and 1 only when absent. The other columns come from the request, and the creation date is today |
| `Auth.CredentialStore.Register` | blueprints/auth.py:16-49 | 400 exactly when one of correo, clave, usuario, nombre, apellido_paterno or id_sucursalactiva is falsy, and then the table is unchanged. Otherwise 201 and exactly one new row under the fresh id |
| `Auth.Present` | blueprints/auth.py:29 | Python truthiness of a JSON string field: present, not null, and not the empty string |
| `Auth.PresentId` | blueprints/auth.py:221 | Python truthiness of a JSON number field: present, not null, and not 0 |
| `Auth.RegisterValid` | blueprints/auth.py:29 | correo, clave, usuario, nombre, apellido_paterno and id_sucursalactiva are all truthy. apellido_materno is not tested |
| `Auth.LoginInputValid` | blueprints/auth.py:61 | usuario and clave are both truthy |
| `Auth.AnyPresent` | blueprints/auth.py:313 | `any([...])`: at least one of the four PUT /me fields is truthy |
| `Bcrypt.CheckPw` | blueprints/auth.py:84 | `bcrypt.checkpw`: the password, derived again with the salt stored in the hash, gives the stored digest |
| `Tables.Qualifies` | blueprints/auth.py:72-79 | the condition the login and refresh queries share: the row exists, `id_estado = 1`, and an (id, 2) application entitlement exists |
| `Auth.Authenticates` | blueprints/auth.py:82-84 | the row is one the login query returns for the username, and its hash accepts the password. This is the opposite of the 401 condition |
| `Tables.SetListFor` | blueprints/auth.py:320-336 | the SET list is exactly the columns whose field is not null, ascending in handler order. Each column's parameter is the field's value, and the user id follows them |
| `Tables.ApplySet` | blueprints/auth.py:338-344 | `SET c0 = %s, c1 = %s, ...` applied to the row: each assignment in order |
| `Tables.LoginCandidates` | blueprints/auth.py:68-82 | the login query returns exactly the rows with that username that are active and entitled to application 2 |
| `Tables.BranchName` | blueprints/auth.py:69-71 | the LEFT JOIN gives the branch's name when the branch row exists and NULL otherwise |
| `Tables.ClaimsOf` | blueprints/auth.py:90-98 | the token claims are the row's rol, perfil, active branch and that branch's name |
| `Auth.SessionFor` | blueprints/auth.py:90-110 | the token is issued to the row's id. The profile fields sent beside it agree with the token's claims |
| `Auth.CredentialStore.Login` | blueprints/auth.py:55-110 | 400 exactly when usuario or clave is falsy. 401 always carries "Usuario o clave incorrectos". 200 only for a qualifying row whose hash accepts the password, with that row's session. No such row gives 401. If every qualifying row accepts the password, the result is 200 |
| `Auth.CredentialStore.Refresh` | blueprints/auth.py:118-165 | 200 with the session rebuilt from the current row exactly when the identity's row is active and entitled to application 2. Otherwise 401 |
| `Auth.LoginAndRefreshAdmitSameRows` | blueprints/auth.py:124-135 | refresh accepts an id exactly when the login query returns that row for some username |
| `Auth.RegisteredUserLogsIn` | blueprints/auth.py:39-87 | a registration with a unique username, active, and with application 2 granted is the only row the login query returns for that username, and it accepts the registered password |
| `Auth.RegistrationGrantsNoLogin` | blueprints/auth.py:39-79 | inserting a user without an app-2 entitlement leaves every username's login candidates unchanged |
| `Scenarios.RegisterThenLogin` | blueprints/auth.py:72-87 | registering a user and logging in with the right password gives 401, because no entitlement exists |
| `Scenarios.RegisterGrantLoginRefresh` | blueprints/auth.py:145-165 | with the entitlement granted, login gives 200 with a token whose claims are rol 3, perfil 1, branch 1 and its name. Refresh answers with the same identity, claims and profile fields |
| `Auth.CredentialStore.CambiarClave` | blueprints/auth.py:173-207 | 400 if a field is falsy. 401 if the row is missing or rejects the current password. In both cases the table is unchanged. Otherwise only that row's `clave` changes, to a salted hash that verifies the new password |
| `Auth.CredentialStore.CambiarSucursal` | blueprints/auth.py:215-264 | 400 if id_sucursal is falsy. 403 without a (user, branch) entitlement. In both cases the table is unchanged. Otherwise only `id_sucursalactiva` changes, if the row exists, and the reply carries the branch name or NULL |
| `Auth.ProfileOf` | blueprints/auth.py:278-294 | the profile is every column of the row except the password hash, plus the branch name |
| `Auth.CredentialStore.ObtenerUsuarioActual` | blueprints/auth.py:272-294 | 404 when the identity has no row. Otherwise 200 with that row's profile |
| `Auth.BuildUpdate` | blueprints/auth.py:320-336 | the SET list holds exactly the columns whose field is not null, in the order nombre, apellido_paterno, apellido_materno, correo. Each is paired with its value, and the user id is the last parameter. When the check at line 313 passes, the list is non-empty |
| `Tables.SetListUnique` | blueprints/auth.py:320-336 | a request determines its SET list and parameter list uniquely |
| `Tables.Assign` | blueprints/auth.py:323-334 | one assignment sets its column and leaves every other column unchanged |
| `Tables.ApplySetKeepsOthers` | blueprints/auth.py:338-344 | the UPDATE leaves the fixed columns, and every editable column not in its SET list, unchanged |
| `Tables.ApplySetWrites` | blueprints/auth.py:338-344 | with each column named once, every column of the SET list ends up holding its parameter |
| `Tables.SetListApplies` | blueprints/auth.py:320-345 | executing the SET list built for a request produces exactly the intended row |
| `Tables.UpdatedRow` | blueprints/auth.py:313-345 | the intended row: each sent field's column holds the sent value, and every other column is unchanged |
| `Auth.CredentialStore.ExecuteUpdate` | blueprints/auth.py:338-347 | the SET list must be non-empty, since `SET  WHERE` is not valid SQL. The parameters bind in order, the last one to `WHERE id`. The matched row gets the SET list, and the row count is 1 or 0 |
| `Auth.CredentialStore.ActualizarUsuarioActual` | blueprints/auth.py:302-355 | 400 when all four fields are falsy. 404 when the row is missing. In both cases the table is unchanged. Otherwise 200 and the row becomes the intended row |

## Left out

- The generic `except Exception` → 500 paths of every handler are not modelled. They are
  failures of the database or libraries.
- JWT signing, encoding and expiry, the token lifetimes, and `jwt_required`'s header parsing are
  not modelled. A token is an unsigned record of identity and claims. Two tokens minted for the
  same row are therefore equal in the model, while real JWTs differ in `iat`, `exp` and `jti`. The authenticated identity
  is a parameter of each handler.
- Refresh tokens are not modelled. No handler of this file issues one, and `/refresh` only reads
  the identity of the one presented.
- bcrypt's key derivation is not modelled. It is the parameter `kdf`. Because of this, nothing
  proves that a hash rejects other passwords. bcrypt does not guarantee that either, for example
  because it ignores input past 72 bytes.
- `bcrypt.gensalt()`, `UUID()` and `date.today()` are parameters of the handlers.
- Auth.CredentialStore.Register: requires that the fresh id is not already a key, which is what
  `UUID()` provides. A primary-key collision is not modelled.
- Auth.NewRow: an explicit JSON `null` for `id_estado`, `id_rol` or `id_perfil` is treated like
  an absent key, so the default applies. The source would store NULL.
- Auth.CredentialStore.ExecuteUpdate: requires a non-empty SET list. With an empty one the
  source's statement would be rejected by MySQL, leading to a 500. Only the check at line 313
  keeps that case out, and `Auth.BuildUpdate` proves it does.
- Auth.CredentialStore.ActualizarUsuarioActual: gives 404 exactly when the row is missing.
  MySQL's affected-row count is also 0 when the sent values equal the stored ones, so the
  service would answer 404 in that case too.
- Auth.CredentialStore.Login: when several active, entitled rows share a username, the database's
  choice of the first row is a nondeterministic pick. The contract says what every pick
  guarantees.
- The username comparison is modelled as exact string equality. MySQL's collation may make it
  case-insensitive.
- JSON values are modelled as strings and integers, with `None` for absent or null. Other JSON
  types and their truthiness (booleans, lists, numbers sent as strings) are not modelled.
- Database connections, cursors, commits and closing, SQL text, logging and concurrency between
  requests are not modelled.
- `app.py` (CORS, JWT configuration, blueprint registration) is not part of this model.
