/**
 * The `user` collection of App.js: one record per email (the schema marks
 * `email` unique), abstracted as an immutable map from email to record, and
 * the one write the handlers use on it, `updateOne({ email }, fields)`.
 */
module Accounts {
  import opened Wrappers

  /** The two values the handlers ever write into the `status` string. */
  datatype Status = NotConnected | Connected

  function StatusText(st: Status): (t: string)
    ensures t == "connected" <==> st == Connected
    ensures t == "not connected" <==> st == NotConnected
  {
    match st
    case NotConnected => "not connected"
    case Connected => "connected"
  }

  /**
   * A stored user. `id` is the `_id` the database assigns when the document
   * is built; `password` holds the bcrypt digest, never the password itself.
   */
  datatype Account = Account(
    id: string,
    email: string,
    name: string,
    password: string,
    facebookId: Option<string>,
    pageName: Option<string>,
    accessToken: Option<string>,
    status: Status)

  type Store = map<string, Account>

  /** The result of a handler that may write: the new store and the payload it answers with. */
  datatype Handled<R> = Handled(store: Store, reply: R)

  /** Every record sits under its own email, so a lookup by key is a query on the email field. */
  ghost predicate WellKeyed(s: Store)
  {
    forall k :: k in s ==> s[k].email == k
  }

  /**
   * The linkage invariant: a record is "connected"
   * exactly when it carries the provider's id and name, and a connected record
   * also carries an access token.
   */
  predicate Linked(a: Account)
  {
    && (a.status == Connected <==> a.facebookId.Some? && a.pageName.Some?)
    && (a.status == Connected ==> a.accessToken.Some?)
  }

  ghost predicate AllLinked(s: Store)
  {
    forall k :: k in s ==> Linked(s[k])
  }

  /** The public fields a handler sends back for a record (everything but the digest and `_id`). */
  datatype AccountView = AccountView(
    email: string,
    name: string,
    facebookId: Option<string>,
    pageName: Option<string>,
    accessToken: Option<string>,
    status: Status)

  function View(a: Account): (v: AccountView)
    ensures v.email == a.email && v.name == a.name && v.status == a.status
    ensures v.facebookId == a.facebookId && v.pageName == a.pageName && v.accessToken == a.accessToken
  {
    AccountView(a.email, a.name, a.facebookId, a.pageName, a.accessToken, a.status)
  }

  /** The fields an `updateOne` in App.js may touch. */
  datatype Field = FacebookIdField | PageNameField | AccessTokenField | StatusField

  /** `b` agrees with `a` on identity, credentials and every provider field outside `changed`. */
  predicate SameExcept(a: Account, b: Account, changed: set<Field>)
  {
    && b.id == a.id && b.email == a.email && b.name == a.name && b.password == a.password
    && (FacebookIdField !in changed ==> b.facebookId == a.facebookId)
    && (PageNameField !in changed ==> b.pageName == a.pageName)
    && (AccessTokenField !in changed ==> b.accessToken == a.accessToken)
    && (StatusField !in changed ==> b.status == a.status)
  }

  /** `t` is `s` with at most the `changed` fields of the record under `email` rewritten. */
  predicate StoreFrame(s: Store, t: Store, email: string, changed: set<Field>)
  {
    && t.Keys == s.Keys
    && (forall k :: k in s && k != email ==> t[k] == s[k])
    && (email in s ==> SameExcept(s[email], t[email], changed))
  }

  /** One key of an update document: left out (or `undefined`, which is stripped) or set. */
  datatype Assign<T> = Keep | Put(value: T) {
    function Over(prev: T): (r: T)
      ensures Keep? ==> r == prev
      ensures Put? ==> r == value
    {
      if Put? then value else prev
    }
  }

  /** The update document of an `updateOne`, restricted to the fields App.js writes. */
  datatype Patch = Patch(
    facebookId: Assign<Option<string>>,
    pageName: Assign<Option<string>>,
    accessToken: Assign<Option<string>>,
    status: Assign<Status>)

  function Touched(p: Patch): (fs: set<Field>)
    ensures FacebookIdField in fs <==> p.facebookId.Put?
    ensures PageNameField in fs <==> p.pageName.Put?
    ensures AccessTokenField in fs <==> p.accessToken.Put?
    ensures StatusField in fs <==> p.status.Put?
  {
    (if p.facebookId.Put? then {FacebookIdField} else {})
    + (if p.pageName.Put? then {PageNameField} else {})
    + (if p.accessToken.Put? then {AccessTokenField} else {})
    + (if p.status.Put? then {StatusField} else {})
  }

  /** Applies an update document to one record. */
  function Apply(a: Account, p: Patch): (b: Account)
    ensures SameExcept(a, b, Touched(p))
    ensures p.facebookId.Put? ==> b.facebookId == p.facebookId.value
    ensures p.pageName.Put? ==> b.pageName == p.pageName.value
    ensures p.accessToken.Put? ==> b.accessToken == p.accessToken.value
    ensures p.status.Put? ==> b.status == p.status.value
  {
    a.(facebookId := p.facebookId.Over(a.facebookId),
       pageName := p.pageName.Over(a.pageName),
       accessToken := p.accessToken.Over(a.accessToken),
       status := p.status.Over(a.status))
  }

  /**
   * `updateOne({ email }, p)`: rewrites the touched fields of the record with
   * that email; when there is none it matches nothing and the store is as before.
   */
  function UpdateOne(s: Store, email: string, p: Patch): (t: Store)
    ensures StoreFrame(s, t, email, Touched(p))
    ensures email !in s ==> t == s
    ensures email in s ==> t[email] == Apply(s[email], p)
  {
    if email in s then s[email := Apply(s[email], p)] else s
  }

  /** Writing the same update document twice is the same as writing it once. */
  lemma UpdateOneIdempotent(s: Store, email: string, p: Patch)
    ensures UpdateOne(UpdateOne(s, email, p), email, p) == UpdateOne(s, email, p)
  {
    if email in s {
      var t := UpdateOne(s, email, p);
      assert Apply(t[email], p) == t[email];
    }
  }
}
