/**
 * The credentials provider's `authorize` decision and the two token callbacks of the
 * authentication options. Objects built by spreading are modelled as maps from
 * property name to JSON-like value.
 */
module Auth {
  import opened Js

  /** The values the callbacks move around. */
  datatype Value =
    | Undefined
    | Null
    | Bool(b: bool)
    | Num(n: int)
    | Str(s: string)
    | Obj(props: map<string, Value>)

  /** Property access `o.key`: an absent property reads as undefined. */
  function Get(o: map<string, Value>, key: string): (v: Value)
    ensures key !in o ==> v == Undefined
    ensures key in o ==> v == o[key]
  {
    if key in o then o[key] else Undefined
  }

  /** The properties `{...v}` copies: an object's own, nothing for null, undefined or a primitive. */
  function Spread(v: Value): (r: map<string, Value>)
  {
    if v.Obj? then v.props else map[]
  }

  // ---------------------------------------------------------------------------
  // authorize
  // ---------------------------------------------------------------------------

  /** A user row as the credentials check reads it. */
  datatype UserRow = UserRow(id: string, email: string, password: string)

  /** The submitted form; each field may be missing. */
  datatype Credentials = Credentials(email: Option<string>, password: Option<string>)

  /** The user table, looked up by (unique) email, or a lookup that throws. */
  datatype Database = Online(byEmail: map<string, UserRow>) | Offline

  /**
   * bcrypt's `compare(plain, hash)`: an uninterpreted check. A missing plain-text
   * password makes it throw, which the model handles before calling it.
   */
  type Compare = (string, string) -> bool

  /**
   * `authorize(credentials)`: early returns over a lookup and a password check;
   * every thrown error is caught and answered with null.
   */
  function Authorize(credentials: Option<Credentials>, db: Database, compare: Compare): (r: Option<UserRow>)
    ensures r.Some? ==>
      && credentials.Some?
      && Truthy(credentials.value.email)
      && db.Online?
      && credentials.value.email.value in db.byEmail
      && r.value == db.byEmail[credentials.value.email.value]
      && credentials.value.password.Some?
      && compare(credentials.value.password.value, r.value.password)
  {
    if credentials.None? || !Truthy(credentials.value.email) then None
    else if db.Offline? then None
    else
      var email := credentials.value.email.value;
      if email !in db.byEmail then None
      else
        var user := db.byEmail[email];
        if credentials.value.password.None? then None
        else if compare(credentials.value.password.value, user.password) then Some(user)
        else None
  }

  /** Missing credentials or a missing or empty email give null, before any lookup. */
  lemma NoEmailNoUser(credentials: Option<Credentials>, db: Database, compare: Compare)
    requires credentials.None? || !Truthy(credentials.value.email)
    ensures Authorize(credentials, db, compare).None?
  {
  }

  /** An email no user has gives null. */
  lemma UnknownEmailNoUser(email: string, password: Option<string>, users: map<string, UserRow>, compare: Compare)
    requires email !in users
    ensures Authorize(Some(Credentials(Some(email), password)), Online(users), compare).None?
  {
  }

  /** A throwing lookup, or a comparison that throws on a missing password, gives null, never a user. */
  lemma ErrorsGiveNull(email: Option<string>, password: Option<string>, db: Database, compare: Compare)
    requires db.Offline? || password.None?
    ensures Authorize(Some(Credentials(email, password)), db, compare).None?
  {
  }

  /** For a known email and a password, the user is returned exactly when the comparison succeeds. */
  lemma UserIffPasswordMatches(email: string, password: string, users: map<string, UserRow>, compare: Compare)
    requires email != "" && email in users
    ensures var r := Authorize(Some(Credentials(Some(email), Some(password))), Online(users), compare);
      (r == Some(users[email])) <==> compare(password, users[email].password)
  {
  }

  // ---------------------------------------------------------------------------
  // jwt and session callbacks
  // ---------------------------------------------------------------------------

  /** `jwt({token, user})`: with a user, the token gains `id: user.id`; otherwise it is returned as is. */
  function Jwt(token: map<string, Value>, user: Option<map<string, Value>>): (r: map<string, Value>)
    ensures user.None? ==> r == token
    ensures user.Some? ==> "id" in r && r["id"] == Get(user.value, "id")
    ensures user.Some? ==> r.Keys == token.Keys + {"id"}
    ensures forall k :: k in token && k != "id" ==> k in r && r[k] == token[k]
  {
    if user.Some? then token["id" := Get(user.value, "id")] else token
  }

  /**
   * `session({session, token})`: the session with `user` replaced by a copy of the
   * old `user` whose `id` is `token.id`.
   */
  function Session(session: map<string, Value>, token: map<string, Value>): (r: map<string, Value>)
    ensures r.Keys == session.Keys + {"user"}
    ensures forall k :: k in session && k != "user" ==> r[k] == session[k]
    ensures r["user"].Obj?
    ensures r["user"].props.Keys == Spread(Get(session, "user")).Keys + {"id"}
    ensures Get(r["user"].props, "id") == Get(token, "id")
    ensures forall k :: k in Spread(Get(session, "user")) && k != "id" ==>
      k in r["user"].props && r["user"].props[k] == Spread(Get(session, "user"))[k]
  {
    session["user" := Obj(Spread(Get(session, "user"))["id" := Get(token, "id")])]
  }

  /** Signing in and then reading the session: the session's user id is the signed-in user's id. */
  lemma SignInCarriesId(token: map<string, Value>, user: map<string, Value>, session: map<string, Value>)
    ensures Get(Session(session, Jwt(token, Some(user)))["user"].props, "id") == Get(user, "id")
  {
  }
}
