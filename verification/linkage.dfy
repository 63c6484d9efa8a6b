/**
 * The account-linkage handlers of App.js: `GET /facebook/callback/:email`
 * (code exchange, long-lived token checkpoint, profile write) and
 * `DELETE /facebook/logout`. Each handler runs atomically; the provider's
 * answers to one attempt are inputs.
 */
module Linkage {
  import opened Wrappers
  import opened Accounts
  import opened Facebook

  /** JavaScript truthiness of `req.query.code`: missing and empty codes are falsy. */
  predicate CodeGiven(code: Option<string>)
    ensures code == None ==> !CodeGiven(code)
    ensures code == Some("") ==> !CodeGiven(code)
    ensures code.Some? && |code.value| > 0 ==> CodeGiven(code)
  {
    code.Some? && code.value != ""
  }

  /** A reply field used as an update value: an absent (`undefined`) value is stripped from the update. */
  function FromReply(v: Option<string>): (a: Assign<Option<string>>)
    ensures a.Put? <==> v.Some?
    ensures a.Put? ==> a.value == v
  {
    if v.Some? then Put(v) else Keep
  }

  /** The token checkpoint: `updateOne({ email }, { accessToken })`. */
  function TokenPatch(longToken: Option<string>): (p: Patch)
    ensures Touched(p) <= {AccessTokenField}
    ensures longToken.Some? ==> p.accessToken == Put(longToken)
  {
    Patch(Keep, Keep, FromReply(longToken), Keep)
  }

  /** The profile write: `updateOne({ email }, { facebookId, pageName, status: "connected" })`. */
  function ConnectPatch(id: Option<string>, name: Option<string>): (p: Patch)
    ensures Touched(p) <= {FacebookIdField, PageNameField, StatusField}
    ensures p.status == Put(Connected)
    ensures id.Some? ==> p.facebookId == Put(id)
    ensures name.Some? ==> p.pageName == Put(name)
  {
    Patch(FromReply(id), FromReply(name), Keep, Put(Connected))
  }

  const ProviderFields: set<Field> := {FacebookIdField, PageNameField, AccessTokenField, StatusField}

  datatype CallbackReply = NoReply | ProviderError(data: string) | Redirect(url: string)

  /**
   * One callback attempt: the final store, what the browser got, the provider
   * requests made in order, and the store after each write in order.
   */
  datatype Attempt = Attempt(store: Store, reply: CallbackReply, calls: seq<ProviderCall>, writes: seq<Store>)

  /**
   * `GET /facebook/callback/:email?code=`. Without a code nothing happens and
   * nothing is sent. A rejected code exchange is answered with the provider's
   * error data. Otherwise the browser is redirected to the front end while the
   * chain goes on: a rejected fetch stops it; a resolved token fetch writes the
   * token checkpoint and triggers the profile fetch; a resolved profile fetch
   * writes the profile fields and "connected". There is no check that the
   * account exists: writes for an unknown email match nothing.
   */
  function Callback(s: Store, app: App, email: string, code: Option<string>, p: Answers): (r: Attempt)
    ensures |r.writes| <= 2 && |r.writes| < |r.calls| + 1
    ensures r.store == if r.writes == [] then s else r.writes[|r.writes| - 1]
    ensures !CodeGiven(code) ==> r.reply == NoReply && r.calls == [] && r.store == s
    ensures CodeGiven(code) ==> 1 <= |r.calls| && r.calls[0] == ExchangeCall(ClientFor(app, email), code.value)
    ensures CodeGiven(code) && p.exchange.ExchangeRejected? ==>
              r.reply == ProviderError(p.exchange.data) && |r.calls| == 1
    ensures CodeGiven(code) && p.exchange.ExchangeResolved? ==>
              r.reply == Redirect(FrontendLogin) && 2 <= |r.calls|
              && r.calls[1] == UpgradeCall(app, p.exchange.shortToken)
    ensures CodeGiven(code) && p.exchange.ExchangeResolved? && p.upgrade.UpgradeRejected? ==> |r.calls| == 2
    ensures CodeGiven(code) && p.exchange.ExchangeResolved? && p.upgrade.UpgradeResolved? ==>
              |r.calls| == 3 && r.calls[2] == ProfileCall(p.upgrade.longToken)
  {
    if !CodeGiven(code) then Attempt(s, NoReply, [], [])
    else
      var exchangeCall := ExchangeCall(ClientFor(app, email), code.value);
      match p.exchange
      case ExchangeRejected(data) => Attempt(s, ProviderError(data), [exchangeCall], [])
      case ExchangeResolved(shortToken) =>
        var upgradeCall := UpgradeCall(app, shortToken);
        match p.upgrade
        case UpgradeRejected => Attempt(s, Redirect(FrontendLogin), [exchangeCall, upgradeCall], [])
        case UpgradeResolved(longToken) =>
          var checkpoint := UpdateOne(s, email, TokenPatch(longToken));
          var calls := [exchangeCall, upgradeCall, ProfileCall(longToken)];
          match p.profile
          case ProfileRejected => Attempt(checkpoint, Redirect(FrontendLogin), calls, [checkpoint])
          case ProfileResolved(id, name) =>
            var connected := UpdateOne(checkpoint, email, ConnectPatch(id, name));
            Attempt(connected, Redirect(FrontendLogin), calls, [checkpoint, connected])
  }

  /** The attempt reaches the token checkpoint exactly when the code, the exchange and the token fetch all succeed. */
  predicate ReachesCheckpoint(code: Option<string>, p: Answers)
  {
    CodeGiven(code) && p.exchange.ExchangeResolved? && p.upgrade.UpgradeResolved?
  }

  /**
   * Early failure: a missing code, a rejected exchange or a rejected token
   * fetch writes nothing; nothing is written before the long-lived token is in.
   */
  lemma CallbackEarlyFailure(s: Store, app: App, email: string, code: Option<string>, p: Answers)
    ensures var r := Callback(s, app, email, code, p);
            && (r.writes == [] <==> !ReachesCheckpoint(code, p))
            && (!ReachesCheckpoint(code, p) ==> r.store == s)
  {
  }

  /**
   * The token checkpoint: the first write changes nothing but the access
   * token of this email's record, and sets it to the token the provider sent.
   */
  lemma CallbackCheckpoint(s: Store, app: App, email: string, code: Option<string>, p: Answers)
    requires ReachesCheckpoint(code, p)
    ensures var r := Callback(s, app, email, code, p);
            && 1 <= |r.writes|
            && StoreFrame(s, r.writes[0], email, {AccessTokenField})
            && (email in s && p.upgrade.longToken.Some? ==>
                  r.writes[0][email].accessToken == p.upgrade.longToken)
  {
  }

  /**
   * A profile fetch that fails after the checkpoint leaves the new token in
   * place and status, id and page name as they were before the attempt.
   */
  lemma CallbackProfileFailure(s: Store, app: App, email: string, code: Option<string>, p: Answers)
    requires ReachesCheckpoint(code, p) && p.profile.ProfileRejected?
    requires email in s && p.upgrade.longToken.Some?
    ensures var a := Callback(s, app, email, code, p).store[email];
            && a.accessToken == p.upgrade.longToken
            && a.status == s[email].status
            && a.facebookId == s[email].facebookId
            && a.pageName == s[email].pageName
  {
  }

  /**
   * The connect step: the second write touches only id, page name and status,
   * and it leaves the record "connected".
   */
  lemma CallbackConnectStep(s: Store, app: App, email: string, code: Option<string>, p: Answers)
    ensures var r := Callback(s, app, email, code, p);
            && (|r.writes| == 2 <==> ReachesCheckpoint(code, p) && p.profile.ProfileResolved?)
            && (|r.writes| == 2 ==> StoreFrame(r.writes[0], r.writes[1], email, {FacebookIdField, PageNameField, StatusField}))
            && (|r.writes| == 2 && email in s ==> r.writes[1][email].status == Connected)
            && (|r.writes| == 2 && email in s && p.profile.id.Some? ==> r.writes[1][email].facebookId == p.profile.id)
            && (|r.writes| == 2 && email in s && p.profile.name.Some? ==> r.writes[1][email].pageName == p.profile.name)
  {
  }

  /** Only the profile step makes a record "connected", and only the record of this email. */
  lemma CallbackConnectsOnlyAtProfileStep(s: Store, app: App, email: string, code: Option<string>, p: Answers, k: string)
    requires k in s && s[k].status != Connected
    ensures var r := Callback(s, app, email, code, p);
            r.store[k].status == Connected ==> k == email && |r.writes| == 2
  {
  }

  /**
   * A fully successful attempt leaves token, id and page name equal to what
   * the provider returned, the record connected, and everything else as it was.
   */
  lemma CallbackFullSuccess(s: Store, app: App, email: string, code: Option<string>, p: Answers,
                            token: string, id: string, name: string)
    requires CodeGiven(code) && p.exchange.ExchangeResolved?
    requires p.upgrade == UpgradeResolved(Some(token)) && p.profile == ProfileResolved(Some(id), Some(name))
    requires email in s
    ensures var r := Callback(s, app, email, code, p);
            && StoreFrame(s, r.store, email, ProviderFields)
            && r.store[email].accessToken == Some(token)
            && r.store[email].facebookId == Some(id)
            && r.store[email].pageName == Some(name)
            && r.store[email].status == Connected
            && Linked(r.store[email])
  {
  }

  /**
   * The handler does not look the account up first: for an unknown email it
   * still calls the provider and redirects, while every write matches nothing.
   */
  lemma CallbackUnknownEmail(s: Store, app: App, email: string, code: Option<string>, p: Answers)
    requires email !in s && CodeGiven(code) && p.exchange.ExchangeResolved?
    ensures var r := Callback(s, app, email, code, p);
            && r.store == s
            && r.reply == Redirect(FrontendLogin)
            && |r.calls| >= 2
  {
  }

  /** The code is exchanged under the same redirect target the login-URL handler issued for this email. */
  lemma SameRedirectTarget(s: Store, app: App, email: string, code: Option<string>, p: Answers)
    requires CodeGiven(code)
    ensures Callback(s, app, email, code, p).calls[0].client == FacebookLogin(app, email).client
    ensures Callback(s, app, email, code, p).calls[0].client.redirectUrl
            == "http://localhost:2000/facebook/callback/" + email
  {
  }

  lemma CallbackPreservesWellKeyed(s: Store, app: App, email: string, code: Option<string>, p: Answers)
    requires WellKeyed(s)
    ensures WellKeyed(Callback(s, app, email, code, p).store)
  {
  }

  /**
   * The profile write marks the record "connected" whatever the provider
   * returned: an error reply without `access_token`, `id` and `name` leaves a
   * fresh account connected with no token, id or page name.
   */
  lemma CallbackBreaksLinked()
    ensures exists s: Store, email: string, code: Option<string>, p: Answers ::
              && AllLinked(s) && email in s
              && !Linked(Callback(s, App("", ""), email, code, p).store[email])
  {
    var email := "a@x.com";
    var s := map[email := Account("1", email, "A", "h", None, None, None, NotConnected)];
    var p := Answers(ExchangeResolved(None), UpgradeResolved(None), ProfileResolved(None, None));
    var r := Callback(s, App("", ""), email, Some("c"), p);
    assert r.store[email].status == Connected && r.store[email].facebookId == None;
  }

  /**
   * The callback corrected to keep `Linked`: the checkpoint is written
   * only with a token, and "connected" only with a token, an id and a name.
   * Calls and replies are those of `Callback`.
   */
  function GuardedCallback(s: Store, app: App, email: string, code: Option<string>, p: Answers): (r: Attempt)
    ensures AllLinked(s) ==> AllLinked(r.store)
    ensures WellKeyed(s) ==> WellKeyed(r.store)
    ensures !ReachesCheckpoint(code, p) ==> r.store == s
    ensures StoreFrame(s, r.store, email, ProviderFields)
    ensures r.reply == Callback(s, app, email, code, p).reply && r.calls == Callback(s, app, email, code, p).calls
  {
    var plain := Callback(s, app, email, code, p);
    if !ReachesCheckpoint(code, p) || p.upgrade.longToken.None? then Attempt(s, plain.reply, plain.calls, [])
    else
      var checkpoint := UpdateOne(s, email, TokenPatch(p.upgrade.longToken));
      match p.profile
      case ProfileResolved(Some(id), Some(name)) =>
        var connected := UpdateOne(checkpoint, email, ConnectPatch(Some(id), Some(name)));
        Attempt(connected, plain.reply, plain.calls, [checkpoint, connected])
      case _ => Attempt(checkpoint, plain.reply, plain.calls, [checkpoint])
  }

  /** When the provider's replies carry every field, the guarded callback is the callback as written. */
  lemma GuardedAgreesOnCompleteReplies(s: Store, app: App, email: string, code: Option<string>, p: Answers)
    requires p.upgrade.UpgradeResolved? ==> p.upgrade.longToken.Some?
    requires p.profile.ProfileResolved? ==> p.profile.id.Some? && p.profile.name.Some?
    ensures GuardedCallback(s, app, email, code, p) == Callback(s, app, email, code, p)
  {
  }

  /** The unlink update: provider fields nulled, status "not connected". */
  const UnlinkPatch: Patch := Patch(Put(None), Put(None), Put(None), Put(NotConnected))

  datatype LogoutReply = Unlinked(account: AccountView) | LogoutFailed

  /**
   * `DELETE /facebook/logout?email=`: clears the provider fields of the record
   * and sends back its public fields; an unknown email matches nothing and the
   * read-back of a missing record fails.
   */
  function Logout(s: Store, email: string): (r: Handled<LogoutReply>)
    ensures StoreFrame(s, r.store, email, ProviderFields)
    ensures email !in s ==> r.store == s && r.reply == LogoutFailed
    ensures email in s ==> && r.store[email].facebookId == None && r.store[email].pageName == None
                           && r.store[email].accessToken == None && r.store[email].status == NotConnected
    ensures email in s ==> r.reply == Unlinked(AccountView(s[email].email, s[email].name, None, None, None, NotConnected))
  {
    var t := UpdateOne(s, email, UnlinkPatch);
    if email in t then Handled(t, Unlinked(View(t[email]))) else Handled(t, LogoutFailed)
  }

  /** Unlinking twice is unlinking once, store and reply alike. */
  lemma LogoutIdempotent(s: Store, email: string)
    ensures Logout(Logout(s, email).store, email) == Logout(s, email)
  {
    UpdateOneIdempotent(s, email, UnlinkPatch);
  }

  lemma LogoutPreserves(s: Store, email: string)
    ensures WellKeyed(s) ==> WellKeyed(Logout(s, email).store)
    ensures AllLinked(s) ==> AllLinked(Logout(s, email).store)
  {
  }
}
