/**
 * The server as a sequence of requests, each handled atomically in arrival
 * order, over one account store.
 */
module Server {
  import opened Wrappers
  import opened Accounts
  import opened Facebook
  import opened Session
  import opened Linkage

  /** The requests of App.js that read or write the store, with the foreign answers each one meets. */
  datatype Request =
    | SignupRequest(id: string, email: string, name: string, password: string)
    | LoginRequest(email: string, password: string)
    | LoginUrlRequested(email: string)
    | CallbackRequest(email: string, code: Option<string>, answers: Answers)
    | LogoutRequest(email: string)

  /** Which callback handler the server runs: the one in App.js, or the guarded correction. */
  datatype Linker = AsWritten | Guarded

  /** The store after one request. */
  function Step(s: Store, crypto: Crypto, app: App, linker: Linker, req: Request): (t: Store)
    ensures req.LoginRequest? || req.LoginUrlRequested? ==> t == s
    ensures !req.SignupRequest? ==> t.Keys == s.Keys
    ensures req.SignupRequest? ==> t.Keys == s.Keys + {req.email}
  {
    match req
    case SignupRequest(id, email, name, password) => Signup(s, crypto, id, email, name, password).store
    case LoginRequest(_, _) => s
    case LoginUrlRequested(_) => s
    case CallbackRequest(email, code, answers) =>
      if linker == AsWritten then Callback(s, app, email, code, answers).store
      else GuardedCallback(s, app, email, code, answers).store
    case LogoutRequest(email) => Logout(s, email).store
  }

  /** The store after a run of requests. */
  function Run(s: Store, crypto: Crypto, app: App, linker: Linker, reqs: seq<Request>): (t: Store)
    ensures s.Keys <= t.Keys
    decreases |reqs|
  {
    if reqs == [] then s
    else Run(Step(s, crypto, app, linker, reqs[0]), crypto, app, linker, reqs[1..])
  }

  lemma StepPreservesWellKeyed(s: Store, crypto: Crypto, app: App, linker: Linker, req: Request)
    requires WellKeyed(s)
    ensures WellKeyed(Step(s, crypto, app, linker, req))
  {
    match req
    case SignupRequest(id, email, name, password) => SignupPreserves(s, crypto, id, email, name, password);
    case LoginRequest(_, _) =>
    case LoginUrlRequested(_) =>
    case CallbackRequest(email, code, answers) => CallbackPreservesWellKeyed(s, app, email, code, answers);
    case LogoutRequest(email) => LogoutPreserves(s, email);
  }

  /** Induction over runs: a property every request keeps holds after any run that starts in it. */
  lemma {:induction false} RunKeeps(inv: Store -> bool, reqs: seq<Request>, s: Store, crypto: Crypto, app: App, linker: Linker)
    requires forall u, r :: inv(u) ==> inv(Step(u, crypto, app, linker, r))
    requires inv(s)
    ensures inv(Run(s, crypto, app, linker, reqs))
    decreases |reqs|
  {
    if reqs != [] {
      RunKeeps(inv, reqs[1..], Step(s, crypto, app, linker, reqs[0]), crypto, app, linker);
    }
  }

  /** Every record stays under its own email whatever the requests and whichever callback runs. */
  lemma RunPreservesWellKeyed(reqs: seq<Request>, s: Store, crypto: Crypto, app: App, linker: Linker)
    requires WellKeyed(s)
    ensures WellKeyed(Run(s, crypto, app, linker, reqs))
  {
    forall u, r | WellKeyed(u) ensures WellKeyed(Step(u, crypto, app, linker, r)) {
      StepPreservesWellKeyed(u, crypto, app, linker, r);
    }
    RunKeeps(u => WellKeyed(u), reqs, s, crypto, app, linker);
  }

  lemma StepKeepsLinked(s: Store, crypto: Crypto, app: App, req: Request)
    requires AllLinked(s)
    ensures AllLinked(Step(s, crypto, app, Guarded, req))
  {
    match req
    case SignupRequest(id, email, name, password) => SignupPreserves(s, crypto, id, email, name, password);
    case LoginRequest(_, _) =>
    case LoginUrlRequested(_) =>
    case CallbackRequest(email, code, answers) =>
    case LogoutRequest(email) => LogoutPreserves(s, email);
  }

  /** With the guarded callback, no run ever leaves a record connected without its provider fields. */
  lemma GuardedRunKeepsLinked(reqs: seq<Request>, s: Store, crypto: Crypto, app: App)
    requires AllLinked(s)
    ensures AllLinked(Run(s, crypto, app, Guarded, reqs))
  {
    forall u, r | AllLinked(u) ensures AllLinked(Step(u, crypto, app, Guarded, r)) {
      StepKeepsLinked(u, crypto, app, r);
    }
    RunKeeps(u => AllLinked(u), reqs, s, crypto, app, Guarded);
  }

  /**
   * Sign up, log in (not connected), link successfully (connected, provider
   * fields set), unlink (not connected, provider fields null).
   */
  lemma SignupLinkUnlinkScenario(crypto: Crypto, app: App, code: string, shortToken: string,
                                 token: string, fbId: string, fbName: string)
    requires crypto.verify("p1", crypto.hash("p1"))
    requires code != ""
    ensures
      var email := "a@x.com";
      var s1 := Signup(map[], crypto, "1", email, "A", "p1").store;
      var login := Login(s1, crypto, email, "p1");
      var answers := Answers(ExchangeResolved(Some(shortToken)), UpgradeResolved(Some(token)),
                             ProfileResolved(Some(fbId), Some(fbName)));
      var s2 := Callback(s1, app, email, Some(code), answers).store;
      var s3 := Logout(s2, email).store;
      && login.LoggedIn? && login.account.status == NotConnected
      && s2[email].status == Connected
      && s2[email].facebookId == Some(fbId) && s2[email].pageName == Some(fbName)
      && s2[email].accessToken == Some(token)
      && s3[email].status == NotConnected
      && s3[email].facebookId == None && s3[email].pageName == None && s3[email].accessToken == None
      && s3[email].password == crypto.hash("p1")
  {
  }
}
