/**
 * The `/signup` and `/login` handlers of App.js. Hashing and comparing with
 * bcrypt and signing with jsonwebtoken are foreign code: they enter as the
 * functions of a `Crypto` value.
 */
module Session {
  import opened Wrappers
  import opened Accounts

  /** The claims the login handler signs: the record's email and `_id`. */
  datatype Claims = Claims(email: string, id: string)

  /**
   * `hash` is `bcrypt.hashSync(_, salt)` with the salt drawn once at start-up
   * (so it is a function of the password), `verify` is `bcrypt.compareSync`,
   * `sign` is `jwt.sign` under the server's secret.
   */
  datatype Crypto = Crypto(
    hash: string -> string,
    verify: (string, string) -> bool,
    sign: Claims -> string)

  /** A new user as the signup handler builds it: provider fields null, not connected. */
  function NewAccount(id: string, email: string, name: string, digest: string): (a: Account)
    ensures a.id == id && a.email == email && a.name == name && a.password == digest
    ensures a.facebookId == None && a.pageName == None && a.accessToken == None
    ensures a.status == NotConnected
    ensures Linked(a)
  {
    Account(id, email, name, digest, None, None, None, NotConnected)
  }

  datatype SignupReply = SignedUp | UserExists {
    /** The `Error` field of the payload. */
    function Error(): (e: string)
      ensures e == "None" <==> SignedUp?
      ensures e == "User already exists" <==> UserExists?
    {
      if SignedUp? then "None" else "User already exists"
    }
  }

  /**
   * `POST /signup`: a record with this email already present is answered with
   * "User already exists" and nothing is written; otherwise the new record is
   * saved. `id` is the `_id` the database gives the new document.
   */
  function Signup(s: Store, crypto: Crypto, id: string, email: string, name: string, password: string)
    : (r: Handled<SignupReply>)
    ensures email in s ==> r.reply == UserExists && r.store == s
    ensures email !in s ==> r.reply == SignedUp
    ensures email !in s ==> r.store.Keys == s.Keys + {email} && |r.store| == |s| + 1
    ensures email !in s ==> forall k :: k in s ==> r.store[k] == s[k]
    ensures email !in s ==> r.store[email] == NewAccount(id, email, name, crypto.hash(password))
  {
    if email in s then Handled(s, UserExists)
    else Handled(s[email := NewAccount(id, email, name, crypto.hash(password))], SignedUp)
  }

  /** Signup keeps every record under its own email and keeps the linkage invariant. */
  lemma SignupPreserves(s: Store, crypto: Crypto, id: string, email: string, name: string, password: string)
    ensures WellKeyed(s) ==> WellKeyed(Signup(s, crypto, id, email, name, password).store)
    ensures AllLinked(s) ==> AllLinked(Signup(s, crypto, id, email, name, password).store)
  {
  }

  /** A second signup with the same email is refused and the first record stays as it was. */
  lemma SignupTwice(s: Store, crypto: Crypto, id1: string, id2: string, email: string,
                    name1: string, name2: string, pw1: string, pw2: string)
    requires email !in s
    ensures var first := Signup(s, crypto, id1, email, name1, pw1);
            var second := Signup(first.store, crypto, id2, email, name2, pw2);
            && second.reply == UserExists
            && second.store == first.store
            && second.store[email].name == name1
            && second.store[email].password == crypto.hash(pw1)
  {
  }

  datatype LoginReply =
    | LoggedIn(account: AccountView, claims: Claims, token: string)
    | PasswordIncorrect(email: string, name: string)
    | UserMissing
  {
    /** The `Login` field of the payload. */
    function Login(): (b: bool)
      ensures b <==> LoggedIn?
    {
      LoggedIn?
    }

    /** The `Error` field of the payload. */
    function Error(): (e: string)
      ensures e == "None" <==> LoggedIn?
      ensures e == "Password Incorrect" <==> PasswordIncorrect?
      ensures e == "user doesn't exist" <==> UserMissing?
    {
      match this
      case LoggedIn(_, _, _) => "None"
      case PasswordIncorrect(_, _) => "Password Incorrect"
      case UserMissing => "user doesn't exist"
    }
  }

  /**
   * `GET /login`: reads the record with this email and never writes (it
   * returns no store). A found record whose email matches and whose digest
   * accepts the password yields its public fields and a token signed over
   * its email and id; a wrong password yields only email and name.
   */
  function Login(s: Store, crypto: Crypto, email: string, password: string): (r: LoginReply)
    ensures r.UserMissing? <==> email !in s || s[email].email != email
    ensures r.PasswordIncorrect? <==>
              email in s && s[email].email == email && !crypto.verify(password, s[email].password)
    ensures r.PasswordIncorrect? ==> r.email == s[email].email && r.name == s[email].name
    ensures r.LoggedIn? ==> email in s && crypto.verify(password, s[email].password)
    ensures r.LoggedIn? ==> r.account == View(s[email])
    ensures r.LoggedIn? ==> r.claims == Claims(s[email].email, s[email].id)
    ensures r.LoggedIn? ==> r.token == crypto.sign(r.claims)
  {
    if email in s && s[email].email == email then
      var found := s[email];
      if crypto.verify(password, found.password) then
        var claims := Claims(found.email, found.id);
        LoggedIn(View(found), claims, crypto.sign(claims))
      else
        PasswordIncorrect(found.email, found.name)
    else
      UserMissing
  }

  /**
   * In a well-keyed store the handler's second check (`userFound.email ===
   * email`) never fails, so the outcome turns on presence and the password only.
   */
  lemma LoginOutcome(s: Store, crypto: Crypto, email: string, password: string)
    requires WellKeyed(s)
    ensures Login(s, crypto, email, password).UserMissing? <==> email !in s
    ensures Login(s, crypto, email, password).LoggedIn? <==>
              email in s && crypto.verify(password, s[email].password)
    ensures Login(s, crypto, email, password).LoggedIn? ==>
              Login(s, crypto, email, password).claims.email == email
  {
  }

  /** Logging in right after signing up succeeds whenever bcrypt accepts its own digest. */
  lemma SignupThenLogin(s: Store, crypto: Crypto, id: string, email: string, name: string, password: string)
    requires email !in s
    requires crypto.verify(password, crypto.hash(password))
    ensures var r := Login(Signup(s, crypto, id, email, name, password).store, crypto, email, password);
            && r.LoggedIn?
            && r.account == AccountView(email, name, None, None, None, NotConnected)
            && r.claims == Claims(email, id)
  {
  }
}
