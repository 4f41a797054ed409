/**
 * The two authentication handlers of server.js, `/api/auth/register` and
 * `/api/auth/login`, as functions of the admin collection. The server class
 * (module Catalogue) runs them against its own state.
 */
module Auth {
  import opened Wrappers
  import opened Records
  import opened Bcrypt
  import opened Jwt
  import AccessGate

  /** An admin document: its id, its username and the bcrypt hash stored in place of the password. */
  datatype Admin = Admin(id: ObjectId, username: string, password: PasswordHash)

  const RegistrationClosed := Response(400, Message("Registrasi admin sudah ditutup."))
  const AdminCreated := Response(201, Message("Admin berhasil dibuat."))
  /** The one answer to a failed login, whichever check failed. */
  const InvalidCredentials := Response(401, Message("Username atau password salah."))

  /** `Admin.findOne({ username })`: the first admin in store order with that username, if any. */
  function FindAdmin(admins: seq<Admin>, username: string): (r: Option<Admin>)
    ensures r.Some? ==> r.value in admins && r.value.username == username
    ensures r.None? <==> forall a :: a in admins ==> a.username != username
    ensures r.Some? ==> (exists i :: 0 <= i < |admins| && admins[i] == r.value
                          && forall j :: 0 <= j < i ==> admins[j].username != username)
  {
    if admins == [] then None
    else if admins[0].username == username then Some(admins[0])
    else FindAdmin(admins[1..], username)
  }

  /**
   * POST /api/auth/register with a fresh id and the salt bcrypt draws: refused
   * once any admin exists; otherwise the one admin, holding the hash of the
   * password and not the password.
   */
  function Register(admins: seq<Admin>, kdf: Kdf, id: ObjectId, username: string, password: string, salt: Salt)
    : (r: (seq<Admin>, Response))
    ensures |admins| > 0 ==> r.0 == admins && r.1.status == 400
    ensures admins == [] ==> r.1.status == 201 && |r.0| == 1
    ensures admins == [] ==> r.0[0].id == id && r.0[0].username == username
    ensures admins == [] ==> Compare(kdf, password, r.0[0].password) && r.0[0].password.cost == SaltRounds && r.0[0].password.salt == salt
  {
    if |admins| > 0 then (admins, RegistrationClosed)
    else ([Admin(id, username, Hash(kdf, password, SaltRounds, salt))], AdminCreated)
  }

  /**
   * POST /api/auth/login at time `now`: a token for the admin with that
   * username when the password compares equal to its hash, otherwise the same
   * 401 whether the username is unknown or the password wrong.
   */
  function Login(admins: seq<Admin>, kdf: Kdf, sign: Signer, secret: string, username: string, password: string, now: int)
    : (r: Response)
    requires |admins| <= 1
    ensures r.status != 200 ==> r == InvalidCredentials
    ensures r.status == 200 <==> exists a :: a in admins && a.username == username && Compare(kdf, password, a.password)
    ensures r.status == 200 ==> exists a :: a in admins && a.username == username && r.body == TokenBody(sign(secret, IssueClaims(a.id, now)))
  {
    match FindAdmin(admins, username)
    case None => InvalidCredentials
    case Some(a) =>
      if Compare(kdf, password, a.password) then Response(200, TokenBody(sign(secret, IssueClaims(a.id, now))))
      else InvalidCredentials
  }

  /** One registration request: the id Mongo assigns, the body, and bcrypt's salt. */
  datatype Registration = Registration(id: ObjectId, username: string, password: string, salt: Salt)

  /** The admin collection after a run of registration requests, one after the other. */
  function AdminsAfter(kdf: Kdf, admins: seq<Admin>, requests: seq<Registration>): seq<Admin>
    decreases |requests|
  {
    if requests == [] then admins
    else
      var q := requests[0];
      AdminsAfter(kdf, Register(admins, kdf, q.id, q.username, q.password, q.salt).0, requests[1..])
  }

  /** Once an admin exists, no run of registrations changes the collection. */
  lemma {:induction false} ClosedStaysClosed(kdf: Kdf, admins: seq<Admin>, requests: seq<Registration>)
    requires |admins| > 0
    ensures AdminsAfter(kdf, admins, requests) == admins
  {
    if requests != [] {
      ClosedStaysClosed(kdf, admins, requests[1..]);
    }
  }

  /**
   * Registration is one-shot: from an empty store, whatever is requested, the
   * first request makes the only admin there will ever be.
   */
  lemma {:induction false} FirstRegistrationWins(kdf: Kdf, requests: seq<Registration>)
    ensures |AdminsAfter(kdf, [], requests)| <= 1
    ensures requests != [] ==>
      AdminsAfter(kdf, [], requests) == [Admin(requests[0].id, requests[0].username, Hash(kdf, requests[0].password, SaltRounds, requests[0].salt))]
  {
    if requests != [] {
      var q := requests[0];
      ClosedStaysClosed(kdf, Register([], kdf, q.id, q.username, q.password, q.salt).0, requests[1..]);
    }
  }

  /** Logging in with the credentials just registered succeeds, with a token for the new admin. */
  lemma RegisterThenLogin(kdf: Kdf, sign: Signer, secret: string, id: ObjectId, username: string, password: string, salt: Salt, now: int)
    ensures var admins := Register([], kdf, id, username, password, salt).0;
      Login(admins, kdf, sign, secret, username, password, now) == Response(200, TokenBody(sign(secret, IssueClaims(id, now))))
  {
  }

  /** Any password whose bcrypt comparison fails is refused with the generic 401. */
  lemma RegisterThenWrongPassword(kdf: Kdf, sign: Signer, secret: string, id: ObjectId, username: string, password: string, salt: Salt, other: string, now: int)
    requires !Compare(kdf, other, Hash(kdf, password, SaltRounds, salt))
    ensures var admins := Register([], kdf, id, username, password, salt).0;
      Login(admins, kdf, sign, secret, username, other, now) == InvalidCredentials
  {
  }

  /**
   * The token a successful login hands out opens the access gate, with the
   * admin's id as subject, until eight hours after issue, and not after.
   */
  lemma LoginTokenOpensGate(admins: seq<Admin>, kdf: Kdf, sign: Signer, verify: Verifier, secret: string,
                            username: string, password: string, issuedAt: int, now: int)
    requires |admins| <= 1
    requires Faithful(sign, verify) && Compact(sign)
    requires Login(admins, kdf, sign, secret, username, password, issuedAt).status == 200
    ensures
      var token := Login(admins, kdf, sign, secret, username, password, issuedAt).body.token;
      exists a :: a in admins && a.username == username &&
        AccessGate.Gate(verify, secret, Some("Bearer " + token), now)
          == (if now < issuedAt + Lifetime then AccessGate.Allow(Claims(a.id, issuedAt, issuedAt + Lifetime)) else AccessGate.Forbidden)
  {
    var a := FindAdmin(admins, username).value;
    AccessGate.IssuedTokenLifetime(sign, verify, secret, a.id, issuedAt, now);
  }
}
