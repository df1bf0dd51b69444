/** Clients of the credential store that follow a registration through to login and refresh,
    using nothing but the handlers' contracts. */
module Scenarios {
  import opened Bcrypt
  import opened Tables
  import opened Auth

  /** The registration used by both scenarios: user "ana" with password "secret1" and active
      branch 1. */
  function Ana(): RegisterRequest
  {
    RegisterRequest(Some("ana@example.com"), Some("secret1"), Some("ana"), Some("Ana"),
                    Some("Diaz"), None, Some(1), None, None, None)
  }

  /** Registration inserts no application entitlement, so a freshly registered user is refused by
      login with the same body as a wrong password, although the password is right. */
  method RegisterThenLogin(kdf: Kdf, salt: Salt) returns (registered: Reply, login: Reply)
    ensures registered == Reply(201, Message(REGISTERED))
    ensures login == Reply(401, Error(BAD_CREDENTIALS))
  {
    var store := new CredentialStore(kdf, map[], map[1 := "Central"], {}, {});
    registered := store.Register(Ana(), "ana-id", salt, 0);
    login := store.Login(Some("ana"), Some("secret1"));
  }

  /** Once application 2 is granted to the new id, login succeeds, the token is issued to that id
      with branch 1 and its name in the claims, and refresh answers with the same identity, claims
      and profile fields. The real tokens differ in their issue time, expiry and token id, which
      an unsigned token record does not carry. */
  method RegisterGrantLoginRefresh(kdf: Kdf, salt: Salt) returns (login: Reply, refresh: Reply)
    ensures login.status == 200 && login.body.Session?
    ensures login.body.accessToken == AccessToken("ana-id", Claims(3, 1, 1, Some("Central")))
    ensures refresh == login
  {
    var store := new CredentialStore(kdf, map[], map[1 := "Central"], {("ana-id", APP_ID)}, {});
    ghost var before := store.users;
    var registered := store.Register(Ana(), "ana-id", salt, 0);
    RegisteredUserLogsIn(kdf, before, store.appAccess, Ana(), "ana-id", salt, 0);
    login := store.Login(Some("ana"), Some("secret1"));
    refresh := store.Refresh("ana-id");
  }
}
