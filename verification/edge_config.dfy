/** The edge-safe `authConfig` of `lib/auth/edge-config.js`: the session strategy, the sign-in
    page, and the two callbacks that carry the user's role from sign-in into the token and from
    the token into every session object. JavaScript objects become records; a property that is
    `undefined` is `None`. */
module EdgeConfig {
  import opened Wrappers

  datatype SessionStrategy = JwtStrategy | DatabaseStrategy

  datatype AuthConfig = AuthConfig(strategy: SessionStrategy, signInPage: string)

  /** The configuration both the gate and the server are built from. */
  const Config := AuthConfig(JwtStrategy, "/login")

  /** The decoded token claims. `claims` holds every claim other than `sub` and `role`
      (name, email, picture, issued-at, expiry, ...). */
  datatype Token = Token(sub: Option<string>, role: Option<string>, claims: map<string, string>) {
    /** A token some JavaScript object maps to: `sub` and `role` are not also in `claims`. */
    predicate WellFormed() {
      "sub" !in claims && "role" !in claims
    }
  }

  /** The user object `authorize` returns and the library hands to `jwt` at sign-in. */
  datatype AuthorizedUser = AuthorizedUser(id: string, email: string, role: Option<string>)

  /** `session.user` as the callback sees it. */
  datatype SessionUser = SessionUser(id: Option<string>, role: Option<string>, name: Option<string>,
                                     email: Option<string>, image: Option<string>)

  /** The session object handed to the callback; `user` may be missing. */
  datatype Session = Session(user: Option<SessionUser>, expires: string)

  /** `callbacks.jwt`: when a user has just signed in, copy its role onto the token; on every
      later call (no user) hand the token back as it came. */
  function Jwt(token: Token, user: Option<AuthorizedUser>): (t: Token)
    ensures user.None? ==> t == token
    ensures user.Some? ==> t.role == user.value.role
    ensures t.sub == token.sub && t.claims == token.claims
    ensures t.WellFormed() <==> token.WellFormed()
  {
    if user.Some? then token.(role := user.value.role) else token
  }

  /** `callbacks.session`: when the session has a user, give it the token's subject as `id` and
      the token's role; everything else in the session stays as it was. */
  function SessionCallback(session: Session, token: Token): (s: Session)
    ensures session.user.None? ==> s == session
    ensures s.expires == session.expires
    ensures s.user.Some? <==> session.user.Some?
    ensures session.user.Some? ==>
              && s.user.value.id == token.sub
              && s.user.value.role == token.role
              && s.user.value.name == session.user.value.name
              && s.user.value.email == session.user.value.email
              && s.user.value.image == session.user.value.image
  {
    if session.user.Some? then
      session.(user := Some(session.user.value.(id := token.sub, role := token.role)))
    else session
  }

  /** Running `jwt` again with the same user changes nothing. */
  lemma JwtIdempotent(token: Token, user: Option<AuthorizedUser>)
    ensures Jwt(Jwt(token, user), user) == Jwt(token, user)
  {
  }

  /** Running `session` again with the same token changes nothing. */
  lemma SessionIdempotent(session: Session, token: Token)
    ensures SessionCallback(SessionCallback(session, token), token) == SessionCallback(session, token)
  {
  }

  /** A user's role written at sign-in is what the session shows. */
  lemma SignInRoleReachesSession(session: Session, token: Token, user: AuthorizedUser)
    requires session.user.Some?
    ensures SessionCallback(session, Jwt(token, Some(user))).user.value.role == user.role
    ensures SessionCallback(session, Jwt(token, Some(user))).user.value.id == token.sub
  {
  }

  /** One request as the token sees it: the library's step, then `jwt`. `user` is present only
      on the request that signs a user in. `issued` holds the claims the library writes itself
      (name, email, picture, issued-at, expiry, token id). */
  datatype Round = Round(issued: map<string, string>, user: Option<AuthorizedUser>)

  /** The library's step before `jwt`. At sign-in it builds a new token whose subject is the
      user's id and which has no role yet; on any other request it re-signs the previous token,
      overwriting the time-bound claims. */
  function LibraryStep(token: Token, round: Round): (t: Token)
    ensures round.user.Some? ==> t.sub == Some(round.user.value.id) && t.role.None?
    ensures round.user.None? ==> t.sub == token.sub && t.role == token.role
    ensures round.user.None? ==> t.claims.Keys == token.claims.Keys + round.issued.Keys
    ensures t.WellFormed() <==>
              (round.user.Some? || token.WellFormed()) && "sub" !in round.issued && "role" !in round.issued
  {
    if round.user.Some? then Token(Some(round.user.value.id), None, round.issued)
    else token.(claims := token.claims + round.issued)
  }

  /** The token after a run of requests. */
  function JwtRounds(token: Token, rounds: seq<Round>): Token
    decreases |rounds|
  {
    if |rounds| == 0 then token
    else JwtRounds(Jwt(LibraryStep(token, rounds[0]), rounds[0].user), rounds[1..])
  }

  /** The most recent user signed in during `rounds`, if any. */
  function LatestSignIn(rounds: seq<Round>): Option<AuthorizedUser>
    decreases |rounds|
  {
    if |rounds| == 0 then None
    else if rounds[|rounds| - 1].user.Some? then rounds[|rounds| - 1].user
    else LatestSignIn(rounds[..|rounds| - 1])
  }

  lemma {:induction false} JwtRoundsSnoc(token: Token, rounds: seq<Round>, last: Round)
    ensures JwtRounds(token, rounds + [last])
         == Jwt(LibraryStep(JwtRounds(token, rounds), last), last.user)
    decreases |rounds|
  {
    if |rounds| > 0 {
      assert (rounds + [last])[1..] == rounds[1..] + [last];
      JwtRoundsSnoc(Jwt(LibraryStep(token, rounds[0]), rounds[0].user), rounds[1..], last);
    }
  }

  /** Across any run of requests the token carries the identity of the last sign-in: its
      subject is that user's id and its role that user's role. With no sign-in in the run both
      stay as they were, whatever the library re-issues; the many `jwt` calls without a user do
      not erase the role. */
  lemma {:induction false} JwtRoundsKeepLatestSignIn(token: Token, rounds: seq<Round>)
    ensures LatestSignIn(rounds).Some? ==>
              && JwtRounds(token, rounds).sub == Some(LatestSignIn(rounds).value.id)
              && JwtRounds(token, rounds).role == LatestSignIn(rounds).value.role
    ensures LatestSignIn(rounds).None? ==>
              && JwtRounds(token, rounds).sub == token.sub
              && JwtRounds(token, rounds).role == token.role
    decreases |rounds|
  {
    if |rounds| > 0 {
      var init, last := rounds[..|rounds| - 1], rounds[|rounds| - 1];
      assert rounds == init + [last];
      JwtRoundsKeepLatestSignIn(token, init);
      JwtRoundsSnoc(token, init, last);
    }
  }
}
