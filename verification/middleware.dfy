/** The request gate of `lib/auth/middleware.js`: a first-match-wins classifier of the request
    path, given whether a valid session exists, plus the route matcher that decides which paths
    reach the gate at all. A redirect is represented by its target path only. */
module Middleware {
  import opened Text

  const ApiPrefix := "/api"
  const LoginPath := "/login"
  const HomePath := "/"

  /** What the gate does with a request: let it through, or send the browser elsewhere. */
  datatype Decision = Pass | Redirect(target: string)

  // ---------------------------------------------------------------------------------------
  // Static assets: /\.(?:svg|png|jpg|jpeg|gif|webp|ico|css|js|woff2?|ttf|eot|mp4|webm)$/i
  // ---------------------------------------------------------------------------------------

  /** The alternatives of the extension group, with `woff2?` written out as its two words. */
  const StaticExtensions: seq<string> :=
    ["svg", "png", "jpg", "jpeg", "gif", "webp", "ico", "css", "js",
     "woff", "woff2", "ttf", "eot", "mp4", "webm"]

  /** The pattern matches when the search starts at index `i`: a literal `.` there, then one
      whole extension running to the end of the path (`$` without the multiline flag). The `i`
      flag folds case; with every pattern letter ASCII, ASCII folding is exact. */
  predicate ExtensionMatchAt(path: string, i: int) {
    0 <= i < |path| && path[i] == '.' && Lower(path[i + 1..]) in StaticExtensions
  }

  /** `RegExp.prototype.test`: some start index yields a match. */
  predicate MatchesStaticPattern(path: string) {
    exists i | 0 <= i < |path| :: ExtensionMatchAt(path, i)
  }

  /** The static-asset test the gate uses: the folded path ends in `.` and one of the listed
      extensions. */
  predicate IsStaticAsset(path: string) {
    exists k | 0 <= k < |StaticExtensions| :: EndsWith(Lower(path), "." + StaticExtensions[k])
  }

  /** A `.ext` suffix of the folded path is a regex match starting at the dot. */
  lemma SuffixGivesMatch(path: string, e: string)
    requires e in StaticExtensions
    requires EndsWith(Lower(path), "." + e)
    ensures ExtensionMatchAt(path, |path| - |e| - 1)
  {
    var i := |path| - |e| - 1;
    LowerSlice(path, i, |path|);
    assert Lower(path)[i] == '.' by { assert Lower(path)[i..] == "." + e; }
    LowerCharDot(path[i]);
    LowerSlice(path, i + 1, |path|);
    assert Lower(path)[i + 1..] == e by { assert Lower(path)[i..] == "." + e; }
    assert path[i + 1..|path|] == path[i + 1..];
    assert Lower(path)[i + 1..|path|] == Lower(path)[i + 1..];
    assert Lower(path[i + 1..]) == e;
  }

  /** A regex match starting at `i` is the suffix `.ext` of the folded path. */
  lemma MatchGivesSuffix(path: string, i: int)
    requires ExtensionMatchAt(path, i)
    ensures EndsWith(Lower(path), "." + Lower(path[i + 1..]))
  {
  }

  /** Suffix matching over the list decides exactly what the regular expression decides. */
  lemma IsStaticAssetMatchesPattern(path: string)
    ensures IsStaticAsset(path) <==> MatchesStaticPattern(path)
  {
    if IsStaticAsset(path) {
      var k :| 0 <= k < |StaticExtensions| && EndsWith(Lower(path), "." + StaticExtensions[k]);
      SuffixGivesMatch(path, StaticExtensions[k]);
    }
    if MatchesStaticPattern(path) {
      var i :| 0 <= i < |path| && ExtensionMatchAt(path, i);
      MatchGivesSuffix(path, i);
      var k :| 0 <= k < |StaticExtensions| && StaticExtensions[k] == Lower(path[i + 1..]);
    }
  }

  /** A path with no `.` in it is never a static asset. */
  lemma DotlessIsNotStatic(path: string)
    requires forall i | 0 <= i < |path| :: path[i] != '.'
    ensures !IsStaticAsset(path)
  {
    IsStaticAssetMatchesPattern(path);
  }

  // ---------------------------------------------------------------------------------------
  // The gate
  // ---------------------------------------------------------------------------------------

  /** A path whose second character is not `a` is outside the API prefix. */
  lemma NotApi(path: string)
    requires |path| >= 2 && path[1] != 'a'
    ensures !StartsWith(path, ApiPrefix)
  {
  }

  /** The `middleware` callback: API paths, then static assets, then the login page, then
      everything else. `hasSession` is `req.auth`, true exactly when a valid session exists. */
  function Gate(path: string, hasSession: bool): (d: Decision)
    ensures StartsWith(path, ApiPrefix) ==> d == Pass
    ensures IsStaticAsset(path) ==> d == Pass
    ensures d.Redirect? ==> d.target != path
    ensures d == Redirect(HomePath) <==> path == LoginPath && hasSession
    ensures d == Redirect(LoginPath) <==>
              !hasSession && !StartsWith(path, ApiPrefix) && !IsStaticAsset(path) && path != LoginPath
    ensures d.Redirect? ==> d.target == HomePath || d.target == LoginPath
  {
    DotlessIsNotStatic(LoginPath);
    NotApi(LoginPath);
    if StartsWith(path, ApiPrefix) then Pass
    else if IsStaticAsset(path) then Pass
    else if path == LoginPath then (if hasSession then Redirect(HomePath) else Pass)
    else if !hasSession then Redirect(LoginPath)
    else Pass
  }

  /** With a session, the login page is the only path the gate turns away. */
  lemma SessionOnlyRedirectsLogin(path: string)
    ensures Gate(path, true) == Pass <==> path != LoginPath
  {
  }

  /** Without a session the gate never sends anyone home. */
  lemma NoSessionNeverRedirectsHome(path: string)
    ensures Gate(path, false) == Pass || Gate(path, false) == Redirect(LoginPath)
  {
  }

  /** Branch order: the API test wins over the extension test, which wins over the login test. */
  lemma BranchOrderExamples()
    ensures Gate("/apiary", false) == Pass
    ensures Gate("/api/logo.png", false) == Pass
    ensures Gate("/login.css", true) == Pass
    ensures Gate("/Fonts/Inter.WOFF2", false) == Pass
  {
    assert StartsWith("/apiary", ApiPrefix);
    assert StartsWith("/api/logo.png", ApiPrefix);
    SuffixGivesMatch("/login.css", "css");
    IsStaticAssetMatchesPattern("/login.css");
    assert Lower("/Fonts/Inter.WOFF2")[12..] == ".woff2";
    SuffixGivesMatch("/Fonts/Inter.WOFF2", "woff2");
    IsStaticAssetMatchesPattern("/Fonts/Inter.WOFF2");
  }

  /** The login page is recognised by exact equality only. */
  lemma LoginIsExactMatch()
    ensures Gate("/login/", false) == Redirect(LoginPath)
    ensures Gate("/Login", false) == Redirect(LoginPath)
    ensures Gate("/login", false) == Pass
    ensures Gate("/dashboard", false) == Redirect(LoginPath)
    ensures Gate("/dashboard", true) == Pass
  {
    DotlessIsNotStatic("/login/");
    NotApi("/login/");
    DotlessIsNotStatic("/Login");
    NotApi("/Login");
    DotlessIsNotStatic("/dashboard");
    NotApi("/dashboard");
  }

  // ---------------------------------------------------------------------------------------
  // The route matcher: '/((?!_next|favicon.ico).*)', matched against the whole path
  // ---------------------------------------------------------------------------------------

  /** One position of a regular-expression alternative: a literal or an unescaped `.`. */
  datatype PatternChar = Literal(c: char) | AnyChar

  /** JavaScript's `.` matches every character except the four line terminators. Without the
      `u` flag the regex engine reads UTF-16 code units, while a Dafny `string` holds code points;
      the two readings differ only for characters outside the Basic Multilingual Plane, which a
      percent-encoded request path never contains. */
  predicate IsLineTerminator(c: char) {
    c == '\n' || c == '\r' || c == '\U{2028}' || c == '\U{2029}'
  }

  predicate CharMatches(p: PatternChar, c: char) {
    match p
    case Literal(l) => c == l
    case AnyChar => !IsLineTerminator(c)
  }

  /** `pat` matches a prefix of `s`. */
  predicate PrefixMatches(pat: seq<PatternChar>, s: string)
    decreases |pat|
  {
    |pat| == 0 || (|s| > 0 && CharMatches(pat[0], s[0]) && PrefixMatches(pat[1..], s[1..]))
  }

  function Literals(s: string): (r: seq<PatternChar>)
    ensures |r| == |s|
  {
    seq(|s|, i requires 0 <= i < |s| => Literal(s[i]))
  }

  /** The alternatives of the negative lookahead `(?!_next|favicon.ico)`. */
  const ExcludedPrefixes: seq<seq<PatternChar>> :=
    [Literals("_next"), Literals("favicon") + [AnyChar] + Literals("ico")]

  /** The lookahead fails when one of its alternatives matches at the current position. */
  predicate LookaheadExcludes(rest: string) {
    exists k | 0 <= k < |ExcludedPrefixes| :: PrefixMatches(ExcludedPrefixes[k], rest)
  }

  /** `config.matcher`: a leading `/`, a lookahead that does not fire, then `.*` to the end. */
  predicate Gated(path: string) {
    && |path| > 0
    && path[0] == '/'
    && !LookaheadExcludes(path[1..])
    && forall i | 1 <= i < |path| :: !IsLineTerminator(path[i])
  }

  /** `favicon`, any one non-line-terminator, then `ico`, at the start of `s`. */
  predicate FaviconLike(s: string) {
    |s| >= 11 && s[..7] == "favicon" && !IsLineTerminator(s[7]) && s[8..11] == "ico"
  }

  lemma {:induction false} PrefixMatchesLiterals(w: string, s: string)
    ensures PrefixMatches(Literals(w), s) <==> StartsWith(s, w)
    decreases |w|
  {
    if |w| > 0 && |s| > 0 {
      assert Literals(w)[1..] == Literals(w[1..]);
      PrefixMatchesLiterals(w[1..], s[1..]);
      {
        assert StartsWith(s, w) <==> s[0] == w[0] && StartsWith(s[1..], w[1..]) by {
          if |w| <= |s| {
            assert s[..|w|] == [s[0]] + s[1..][..|w| - 1];
            assert w == [w[0]] + w[1..];
          }
        }
      }
    }
  }

  lemma {:induction false} PrefixMatchesConcat(p: seq<PatternChar>, q: seq<PatternChar>, s: string)
    ensures PrefixMatches(p + q, s) <==>
            |p| <= |s| && PrefixMatches(p, s) && PrefixMatches(q, s[|p|..])
    decreases |p|
  {
    if |p| > 0 {
      assert (p + q)[1..] == p[1..] + q;
      if |s| > 0 {
        PrefixMatchesConcat(p[1..], q, s[1..]);
        if |p| <= |s| {
          assert s[1..][|p| - 1..] == s[|p|..];
        }
      }
    } else {
      assert p + q == q;
    }
  }

  lemma FaviconAlternative(s: string)
    ensures PrefixMatches(ExcludedPrefixes[1], s) <==> FaviconLike(s)
  {
    var fav, dot, ico := Literals("favicon"), [AnyChar], Literals("ico");
    assert ExcludedPrefixes[1] == fav + (dot + ico);
    PrefixMatchesConcat(fav, dot + ico, s);
    PrefixMatchesLiterals("favicon", s);
    if |s| >= 7 {
      PrefixMatchesConcat(dot, ico, s[7..]);
      if |s| >= 8 {
        assert s[7..][1..] == s[8..];
        PrefixMatchesLiterals("ico", s[8..]);
        assert PrefixMatches(dot, s[7..]) <==> !IsLineTerminator(s[7]);
        if |s| >= 11 {
          assert s[8..][..3] == s[8..11];
        }
      }
    }
  }

  /** The matcher leaves a path to the framework exactly when the text after the leading `/`
      begins with `_next`, or with `favicon`, any one character and `ico`; `.*` admits every
      path free of line terminators. */
  lemma GatedIff(path: string)
    ensures Gated(path) <==>
              && |path| > 0 && path[0] == '/'
              && !StartsWith(path[1..], "_next")
              && !FaviconLike(path[1..])
              && forall i | 1 <= i < |path| :: !IsLineTerminator(path[i])
  {
    if |path| > 0 {
      var rest := path[1..];
      PrefixMatchesLiterals("_next", rest);
      FaviconAlternative(rest);
      assert LookaheadExcludes(rest) <==>
             PrefixMatches(ExcludedPrefixes[0], rest) || PrefixMatches(ExcludedPrefixes[1], rest);
    }
  }

  /** Every path whose first segment begins with `_next` skips the gate, not only `/_next/…`. */
  lemma NextPathsSkipGate()
    ensures !Gated("/_next/static/main.js")
    ensures !Gated("/_nextra")
  {
    GatedIff("/_next/static/main.js");
    assert StartsWith("/_next/static/main.js"[1..], "_next");
    GatedIff("/_nextra");
    assert StartsWith("/_nextra"[1..], "_next");
  }

  /** The unescaped `.` in `favicon.ico` stands for any one character. */
  lemma FaviconPathsSkipGate()
    ensures !Gated("/favicon.ico")
    ensures !Gated("/favicon-ico")
  {
    GatedIff("/favicon.ico");
    assert FaviconLike("/favicon.ico"[1..]);
    GatedIff("/favicon-ico");
    assert FaviconLike("/favicon-ico"[1..]);
  }

  /** The lookahead only looks right after the leading `/`. */
  lemma MatcherGates()
    ensures Gated("/x/_next")
    ensures Gated("/login")
    ensures Gated("/")
  {
  }

  /** A whole request: paths the matcher leaves out never reach the gate and go through. */
  function Handle(path: string, hasSession: bool): (d: Decision)
    ensures !Gated(path) ==> d == Pass
    ensures Gated(path) ==> d == Gate(path, hasSession)
  {
    if Gated(path) then Gate(path, hasSession) else Pass
  }

  /** There is no redirect chain: following a redirect with the same session lands on a path
      the matcher gates and the gate lets through. */
  lemma RedirectTargetPasses(path: string, hasSession: bool)
    requires Handle(path, hasSession).Redirect?
    ensures Gated(Handle(path, hasSession).target)
    ensures Handle(Handle(path, hasSession).target, hasSession) == Pass
  {
  }
}
