/**
 * The authentication callbacks: who may sign in, how a session's email is normalised, and which
 * requests the middleware lets through. Each decision rests on the allow-list test of Config.
 */
module Auth {
  import opened Wrappers
  import opened Text
  import opened Config

  /** The page the sign-in flow redirects to, and the prefix that is always reachable. */
  const SignInPath := "/signin"

  /** The profile the provider hands to `signIn`. */
  datatype SignInUser = SignInUser(name: Option<string>, email: Option<string>, image: Option<string>)

  /** The email of an optional user: `user?.email`. */
  function EmailOf(user: Option<SignInUser>): Option<string> {
    if user.Some? then user.value.email else None
  }

  /** The `signIn` callback: the sign-in goes ahead exactly when the email is on the list. */
  function SignIn(allowed: seq<string>, user: Option<SignInUser>): (ok: bool)
    ensures ok <==> user.Some? && user.value.email.Some? && user.value.email.value != ""
                    && Lower(user.value.email.value) in allowed
  {
    IsEmailAllowed(allowed, EmailOf(user))
  }

  /** The user part of a session object. */
  class SessionUser {
    var name: Option<string>
    var email: Option<string>
    var image: Option<string>

    constructor (name: Option<string>, email: Option<string>, image: Option<string>)
      ensures this.name == name && this.email == email && this.image == image
    {
      this.name := name;
      this.email := email;
      this.image := image;
    }
  }

  /** A session object as NextAuth builds it; the `session` callback edits it in place. */
  class Session {
    var user: SessionUser?
    var expires: string

    constructor (user: SessionUser?, expires: string)
      ensures this.user == user && this.expires == expires
    {
      this.user := user;
      this.expires := expires;
    }
  }

  /** The value a session holds, apart from object identity. */
  datatype UserView = UserView(name: Option<string>, email: Option<string>, image: Option<string>)
  datatype SessionView = SessionView(user: Option<UserView>, expires: string)

  /** The current value of `s` and of its user object. */
  function View(s: Session): SessionView
    reads s, s.user
  {
    SessionView(if s.user == null then None else Some(UserView(s.user.name, s.user.email, s.user.image)), s.expires)
  }

  /** The email the session callback leaves: lowercased when it is present and non-empty. */
  function NormaliseEmail(email: Option<string>): (r: Option<string>)
    ensures email.Some? && email.value != "" ==> r == Some(Lower(email.value))
    ensures email.None? || email.value == "" ==> r == email
    ensures r.Some? ==> Lower(r.value) == r.value
  {
    LowerIdempotent(if email.Some? then email.value else "");
    if email.Some? && email.value != "" then Some(Lower(email.value)) else email
  }

  /** The session value after the `session` callback: only the email may change. */
  function NormaliseSession(v: SessionView): (r: SessionView)
    ensures r.expires == v.expires && r.user.Some? == v.user.Some?
    ensures r.user.Some? ==> r.user.value.name == v.user.value.name && r.user.value.image == v.user.value.image
                             && r.user.value.email == NormaliseEmail(v.user.value.email)
  {
    if v.user.None? then v
    else SessionView(Some(v.user.value.(email := NormaliseEmail(v.user.value.email))), v.expires)
  }

  /** Running the `session` callback twice leaves what running it once leaves. */
  lemma NormaliseSessionIdempotent(v: SessionView)
    ensures NormaliseSession(NormaliseSession(v)) == NormaliseSession(v)
  {
    if v.user.Some? && v.user.value.email.Some? && v.user.value.email.value != "" {
      LowerIdempotent(v.user.value.email.value);
    }
  }

  /** The `session` callback: lowercases a present email of the session's user, in place, and returns the same object. */
  method SessionCallback(session: Session) returns (r: Session)
    modifies session.user
    ensures r == session
    ensures session.user == old(session.user) && session.expires == old(session.expires)
    ensures View(session) == NormaliseSession(old(View(session)))
  {
    var user := session.user;
    if user != null && user.email.Some? && user.email.value != "" {
      user.email := Some(Lower(user.email.value));
    }
    r := session;
  }

  /** The `jwt` callback hands the token back as it came. */
  function Jwt<T>(token: T): (r: T)
    ensures r == token
  {
    token
  }

  /** The `authorized` callback of the middleware, for a request to `pathname`. */
  function Authorized(allowed: seq<string>, auth: Option<SessionView>, pathname: string): (ok: bool)
    ensures StartsWith(pathname, SignInPath) ==> ok
    ensures !StartsWith(pathname, SignInPath) ==>
      (ok <==> auth.Some? && auth.value.user.Some? && auth.value.user.value.email.Some?
               && auth.value.user.value.email.value != ""
               && Lower(auth.value.user.value.email.value) in allowed)
  {
    if StartsWith(pathname, SignInPath) then true
    else if auth.None? || auth.value.user.None? || auth.value.user.value.email.None?
            || auth.value.user.value.email.value == "" then false
    else IsEmailAllowed(allowed, auth.value.user.value.email)
  }

  /**
   * A user whom `signIn` admitted is authorized on every path once the `session` callback has
   * normalised the session built from their profile.
   */
  lemma SignedInIsAuthorized(allowed: seq<string>, user: SignInUser, expires: string, pathname: string)
    requires SignIn(allowed, Some(user))
    ensures Authorized(allowed, Some(NormaliseSession(SessionView(Some(UserView(user.name, user.email, user.image)), expires))), pathname)
  {
    LowerIdempotent(user.email.value);
  }

  /** Away from the sign-in page, the middleware and `signIn` agree on a session that carries the user's email. */
  lemma AuthorizedAgreesWithSignIn(allowed: seq<string>, user: SignInUser, expires: string, pathname: string)
    requires !StartsWith(pathname, SignInPath)
    ensures Authorized(allowed, Some(SessionView(Some(UserView(user.name, user.email, user.image)), expires)), pathname)
            == SignIn(allowed, Some(user))
  {
  }

  /** Without a session, only the sign-in pages are reachable. */
  lemma NoSessionOnlySignIn(allowed: seq<string>, pathname: string)
    ensures Authorized(allowed, None, pathname) <==> StartsWith(pathname, SignInPath)
  {
  }
}
