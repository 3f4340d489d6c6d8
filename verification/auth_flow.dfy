/** How the pieces fit: the edge configuration and the gate agree on their literals, and a
    successful sign-in carries the stored role through the token into the session. */
module AuthFlow {
  import opened Wrappers
  import opened Credentials
  import opened EdgeConfig
  import Middleware
  import Text

  /** The configured sign-in page is the page the gate special-cases and the page every
      protected path without a session is sent to, and sessions live in the token. */
  lemma ConfigAgreesWithGate(path: string)
    ensures Config.signInPage == Middleware.LoginPath
    ensures Config.strategy == JwtStrategy
    ensures Middleware.Gate(Config.signInPage, false) == Middleware.Pass
    ensures Middleware.Gate(Config.signInPage, true) == Middleware.Redirect(Middleware.HomePath)
    ensures !Text.StartsWith(path, Middleware.ApiPrefix) && !Middleware.IsStaticAsset(path)
            && path != Config.signInPage
            ==> Middleware.Gate(path, false) == Middleware.Redirect(Config.signInPage)
  {
  }

  /** The requests after sign-in: the library re-signs the token with `reissued[i]`, and no user
      is passed to `jwt`. */
  function QuietRounds(reissued: seq<map<string, string>>): (rounds: seq<Round>)
    ensures |rounds| == |reissued|
    ensures forall i | 0 <= i < |rounds| :: rounds[i].user.None?
  {
    seq(|reissued|, i requires 0 <= i < |reissued| => Round(reissued[i], None))
  }

  /** After a successful `authorize`, every later session shows the stored record's id and the
      role the store holds for the submitted email, however many requests follow the sign-in
      and whatever the library re-issues on each of them. */
  lemma StoredIdentityReachesSession(credentials: Option<Submitted>, lookup: string -> Option<User>,
                                     verify: (User, string) -> bool, token: Token,
                                     signInClaims: map<string, string>,
                                     later: seq<map<string, string>>, session: Session)
    requires Authorize(credentials, lookup, verify).result.Some?
    requires session.user.Some?
    ensures var signedIn := Authorize(credentials, lookup, verify).result;
            var stored := lookup(credentials.value.email.value).value;
            var shown := SessionCallback(session, JwtRounds(token, [Round(signInClaims, signedIn)]
                                                               + QuietRounds(later))).user.value;
            shown.id == Some(stored.id) && shown.role == stored.role
  {
    var signedIn := Authorize(credentials, lookup, verify).result;
    var rounds := [Round(signInClaims, signedIn)] + QuietRounds(later);
    JwtRoundsKeepLatestSignIn(token, rounds);
    LatestSignInAfterQuietRounds(Round(signInClaims, signedIn), later);
  }

  /** Requests without a sign-in after the last one do not change who signed in last. */
  lemma {:induction false} LatestSignInAfterQuietRounds(first: Round, later: seq<map<string, string>>)
    requires first.user.Some?
    ensures LatestSignIn([first] + QuietRounds(later)) == first.user
    decreases |later|
  {
    if |later| > 0 {
      var rounds := [first] + QuietRounds(later);
      var shorter := [first] + QuietRounds(later[..|later| - 1]);
      assert rounds[..|rounds| - 1] == shorter;
      LatestSignInAfterQuietRounds(first, later[..|later| - 1]);
    }
  }
}
