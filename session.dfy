/**
 * The authenticated identity, its durable copy under the key "authData",
 * and the decisions taken from it: the admin route gate and the navbar.
 */
module Session {
  import opened Wrappers

  const STORAGE_KEY := "authData"
  const ADMIN_ROLE := "admin"

  /** The user part of a login response. */
  datatype User = User(email: string, role: string)

  /** A login response, `{user, accessToken}`; `user` may be absent. */
  datatype AuthData = AuthData(user: Option<User>, accessToken: string)

  // ---------------------------------------------------------------------
  // Serialising a session to text and back
  // ---------------------------------------------------------------------

  /** The body of a quoted string: `"` and `\` are preceded by `\`. */
  function Escape(s: string): string
    decreases |s|
  {
    if s == [] then []
    else (if s[0] == '"' || s[0] == '\\' then ['\\', s[0]] else [s[0]]) + Escape(s[1..])
  }

  /**
   * Reads a quoted string's body up to its closing quote, which is
   * consumed; returns the unescaped text and what follows the quote.
   */
  function Unquote(t: string): Option<(string, string)>
    decreases |t|
  {
    if t == [] then None
    else if t[0] == '"' then Some(([], t[1..]))
    else if t[0] == '\\' then
      if |t| < 2 then None
      else
        var p :- Unquote(t[2..]);
        Some(([t[1]] + p.0, p.1))
    else
      var p :- Unquote(t[1..]);
      Some(([t[0]] + p.0, p.1))
  }

  /** Consumes the literal `lit` at the start of `t`. */
  function Expect(lit: string, t: string): (r: Option<string>)
    ensures r.Some? <==> lit <= t
    ensures r.Some? ==> t == lit + r.value
  {
    if lit <= t then Some(t[|lit|..]) else None
  }

  const USER_OPEN := "{\"user\":"
  const EMAIL_OPEN := "{\"email\":\""
  const ROLE_OPEN := ",\"role\":\""
  const TOKEN_OPEN := ",\"accessToken\":\""
  const NULL := "null"
  const QUOTE := "\""
  const CLOSE := "}"

  /** The text of the user part followed by `rest`. */
  function UserTextThen(u: Option<User>, rest: string): string {
    match u
    case None => NULL + rest
    case Some(user) =>
      EMAIL_OPEN + (Escape(user.email) + (QUOTE + (ROLE_OPEN + (Escape(user.role) + (QUOTE + (CLOSE + rest))))))
  }

  /**
   * `JSON.stringify(authData)` for the session's shape:
   * `{"user":{"email":"…","role":"…"},"accessToken":"…"}`, or `"user":null`.
   */
  function Serialize(a: AuthData): string {
    USER_OPEN + UserTextThen(a.user, TOKEN_OPEN + (Escape(a.accessToken) + (QUOTE + CLOSE)))
  }

  function ParseUser(t: string): Option<(Option<User>, string)> {
    if NULL <= t then Some((None, t[|NULL|..]))
    else
      var t1 :- Expect(EMAIL_OPEN, t);
      var email :- Unquote(t1);
      var t2 :- Expect(ROLE_OPEN, email.1);
      var role :- Unquote(t2);
      var t3 :- Expect(CLOSE, role.1);
      Some((Some(User(email.0, role.0)), t3))
  }

  /** `JSON.parse(text)` restricted to the session's shape; None for anything else. */
  function Parse(t: string): Option<AuthData> {
    var t1 :- Expect(USER_OPEN, t);
    var user :- ParseUser(t1);
    var t2 :- Expect(TOKEN_OPEN, user.1);
    var token :- Unquote(t2);
    if token.1 == CLOSE then Some(AuthData(user.0, token.0)) else None
  }

  lemma {:induction false} UnquoteEscape(s: string, rest: string)
    ensures Unquote(Escape(s) + (QUOTE + rest)) == Some((s, rest))
    decreases |s|
  {
    var t := Escape(s) + (QUOTE + rest);
    if s == [] {
      assert t == QUOTE + rest;
    } else {
      var tail := Escape(s[1..]) + (QUOTE + rest);
      UnquoteEscape(s[1..], rest);
      assert [s[0]] + s[1..] == s;
      if s[0] == '"' || s[0] == '\\' {
        assert t == ['\\', s[0]] + tail;
        assert t[2..] == tail;
      } else {
        assert t == [s[0]] + tail;
        assert t[1..] == tail;
      }
    }
  }

  lemma ExpectPrefix(lit: string, rest: string)
    ensures Expect(lit, lit + rest) == Some(rest)
  {
    assert (lit + rest)[|lit|..] == rest;
  }

  lemma ParseUserText(u: Option<User>, rest: string)
    ensures ParseUser(UserTextThen(u, rest)) == Some((u, rest))
  {
    var t := UserTextThen(u, rest);
    match u
    case None =>
      assert t[|NULL|..] == rest;
    case Some(user) =>
      var afterEmail := ROLE_OPEN + (Escape(user.role) + (QUOTE + (CLOSE + rest)));
      assert t[0] == '{';
      assert !(NULL <= t);
      ExpectPrefix(EMAIL_OPEN, Escape(user.email) + (QUOTE + afterEmail));
      UnquoteEscape(user.email, afterEmail);
      ExpectPrefix(ROLE_OPEN, Escape(user.role) + (QUOTE + (CLOSE + rest)));
      UnquoteEscape(user.role, CLOSE + rest);
      ExpectPrefix(CLOSE, rest);
  }

  /** Reading back what was written gives the same session. */
  lemma ParseSerialize(a: AuthData)
    ensures Parse(Serialize(a)) == Some(a)
  {
    var tail := TOKEN_OPEN + (Escape(a.accessToken) + (QUOTE + CLOSE));
    ExpectPrefix(USER_OPEN, UserTextThen(a.user, tail));
    ParseUserText(a.user, tail);
    ExpectPrefix(TOKEN_OPEN, Escape(a.accessToken) + (QUOTE + CLOSE));
    UnquoteEscape(a.accessToken, CLOSE);
  }

  // ---------------------------------------------------------------------
  // The durable copy
  // ---------------------------------------------------------------------

  /**
   * The session on startup: the saved text parsed, or none when nothing is
   * saved, the saved text is empty or it does not parse.
   */
  function Load(storage: map<string, string>): (r: Option<AuthData>)
    ensures STORAGE_KEY !in storage ==> r == None
    ensures STORAGE_KEY in storage ==> r == Parse(storage[STORAGE_KEY])
  {
    if STORAGE_KEY in storage && storage[STORAGE_KEY] != "" then Parse(storage[STORAGE_KEY]) else None
  }

  /**
   * The storage after the persistence effect: a session is written under
   * the key, no session removes the key, and every other key is kept.
   */
  function Persist(storage: map<string, string>, a: Option<AuthData>): (r: map<string, string>)
    ensures STORAGE_KEY in r <==> a.Some?
    ensures a.Some? ==> r[STORAGE_KEY] == Serialize(a.value)
    ensures forall k :: k != STORAGE_KEY ==> (k in r <==> k in storage)
    ensures forall k :: k != STORAGE_KEY && k in r ==> r[k] == storage[k]
  {
    match a
    case Some(data) => storage[STORAGE_KEY := Serialize(data)]
    case None => storage - {STORAGE_KEY}
  }

  /** A reload after the persistence effect restores exactly the session that was persisted. */
  lemma LoadAfterPersist(storage: map<string, string>, a: Option<AuthData>)
    ensures Load(Persist(storage, a)) == a
  {
    if a.Some? {
      ParseSerialize(a.value);
    }
  }

  // ---------------------------------------------------------------------
  // Decisions taken from the session
  // ---------------------------------------------------------------------

  /** `authData?.user?.role === 'admin'`. */
  predicate IsAdmin(a: Option<AuthData>) {
    a.Some? && a.value.user.Some? && a.value.user.value.role == ADMIN_ROLE
  }

  /** What the `/admin` route renders. */
  datatype AdminView = AdminPanel(user: User, token: string) | AccessDenied

  /**
   * The admin page, given the session's user and token, exactly when the
   * session's user has the role "admin"; the access-denied view otherwise.
   */
  function AdminRoute(a: Option<AuthData>): (v: AdminView)
    ensures v.AdminPanel? <==> IsAdmin(a)
    ensures v.AdminPanel? ==> Some(v.user) == a.value.user && v.token == a.value.accessToken
  {
    if IsAdmin(a) then AdminPanel(a.value.user.value, a.value.accessToken) else AccessDenied
  }

  /** The user section of the navbar. */
  datatype NavbarView = LoginLink | SignedIn(email: string, adminLink: bool)

  /** The navbar for the user `authData?.user`. */
  function Navbar(a: Option<AuthData>): (v: NavbarView)
    ensures v.SignedIn? <==> a.Some? && a.value.user.Some?
    ensures v.SignedIn? ==> v.email == a.value.user.value.email
  {
    if a.Some? && a.value.user.Some? then
      SignedIn(a.value.user.value.email, a.value.user.value.role == ADMIN_ROLE)
    else LoginLink
  }

  /** The navbar offers the admin link exactly when the admin route would grant access. */
  lemma AdminLinkMatchesGate(a: Option<AuthData>)
    ensures (Navbar(a).SignedIn? && Navbar(a).adminLink) <==> AdminRoute(a).AdminPanel?
  {
  }

  /** The admin page is never shown without a session whose user is an admin. */
  lemma NoAdminWithoutAdminRole(a: Option<AuthData>)
    ensures a.None? ==> AdminRoute(a) == AccessDenied
    ensures a.Some? && a.value.user.None? ==> AdminRoute(a) == AccessDenied
    ensures a.Some? && a.value.user.Some? && a.value.user.value.role != ADMIN_ROLE ==> AdminRoute(a) == AccessDenied
  {
  }
}
