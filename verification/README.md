# Authentication layer of codebot, in Dafny

This project models the decision logic of the app's authentication layer. It covers four small,
pure pieces:

- **The request gate** (`Middleware`) is the Next.js middleware callback. It classifies a request
  path, given whether a valid session exists, and either lets the request through or redirects
  it. The module also models the route matcher, which decides which paths reach the gate at all.
- **The credential authorizer** (`Credentials`) is the `authorize` callback of the Credentials
  provider. The user store (`getUserByEmail`) and the password check (`verifyPassword`) are
  function parameters. The callback also returns the store calls it made, so a contract can say
  when the store is not consulted.
- **The claim callbacks** (`EdgeConfig`) hold the edge-safe `authConfig`. Its `jwt` callback
  copies the user's role onto the token at sign-in. Its `session` callback copies the token's
  subject and role onto `session.user`.
- **The build-config wrapper** (`BuildConfig`) is `withThepopebot`. It forces `distDir` from the
  environment and appends three server packages to the user's `serverExternalPackages`.

`AuthFlow` connects the pieces. The configured sign-in page is the page the gate special-cases,
and the role stored for a user reaches every later session object. `Wrappers` (Option) and
`Text` (ASCII case folding, `startsWith`/`endsWith`) are helpers.

JavaScript values are modelled as follows:

- `undefined` and `null` are `None`.
- A redirect is its target path.
- `req.auth` is a boolean that says whether a valid session exists.
- The process environment is a `map<string, string>` parameter.

The static-asset test is a regular expression with the `i` flag. It is modelled twice:

- as the regex search itself, `MatchesStaticPattern`: a `.` at some index, followed to the end of
  the path by one of the extensions;
- as suffix matching over the fifteen-word extension list, `IsStaticAsset`. The gate uses this one.

A lemma proves that the two agree. Every letter in the pattern is ASCII. JavaScript's
non-Unicode case folding never maps a non-ASCII character to an ASCII one. So ASCII lower-casing
is exact here.

Because the API test is `startsWith('/api')`, paths such as `/apiary` or `/api-docs` are also let
through without a session. The model keeps this behaviour; `BranchOrderExamples` states it.

## Model

| member | source | states |
|---|---|---|
| Middleware.IsStaticAssetMatchesPattern | lib/auth/middleware.js:14-16 | suffix matching over the extension list (`woff2?` as two words) holds exactly when the case-insensitive regex finds a `.ext` match ending at the end of the path |
| Middleware.DotlessIsNotStatic | lib/auth/middleware.js:14 | a path containing no `.` is never a static asset |
| Middleware.Gate | lib/auth/middleware.js:7-28 | API-prefixed and static-asset paths pass regardless of session; redirect home iff the path is exactly `/login` with a session; redirect to `/login` iff no session and the path is neither API, static nor `/login`; the only targets are `/` and `/login`, and a target never equals the requested path |
| Middleware.SessionOnlyRedirectsLogin | lib/auth/middleware.js:19-27 | with a session, every path except `/login` passes |
| Middleware.NoSessionNeverRedirectsHome | lib/auth/middleware.js:19-27 | without a session the gate passes or redirects to `/login`, never home |
| Middleware.BranchOrderExamples | lib/auth/middleware.js:11-22 | `/apiary` and `/api/logo.png` pass (prefix test first); `/login.css` passes even with a session (extension test before the login test); upper-case extensions count |
| Middleware.LoginIsExactMatch | lib/auth/middleware.js:19-27 | `/login/` and `/Login` are protected paths, not the login page; `/login` passes without a session; `/dashboard` redirects to `/login` without a session and passes with one |
| Middleware.GatedIff | lib/auth/middleware.js:32 | the matcher leaves a path out iff the text after the leading `/` begins with `_next`, or with `favicon`, any one character and `ico`; it gates every other `/` path free of line terminators |
| Middleware.NextPathsSkipGate | lib/auth/middleware.js:32 | `/_next/...` and also `/_nextra` are never gated |
| Middleware.FaviconPathsSkipGate | lib/auth/middleware.js:32 | the unescaped `.` lets `/favicon-ico` skip the gate as `/favicon.ico` does |
| Middleware.MatcherGates | lib/auth/middleware.js:32 | the lookahead only looks right after the first `/`: `/x/_next`, `/login` and `/` are gated |
| Middleware.Handle | lib/auth/middleware.js:30-32 | a path the matcher leaves out passes untouched; a gated path gets the gate's decision |
| Middleware.RedirectTargetPasses | lib/auth/middleware.js:19-27 | following a redirect with the same session reaches a gated path that passes, so no redirect chain or loop exists |
| Credentials.Authorize | lib/auth/config.js:13-24 | a missing or empty email or password gives null with no store call; otherwise the store is looked up by exactly the submitted email, and the password check, made only when a user is found, gets that user and the submitted password; the result is non-null iff all of these succeed; the returned id, email and role are the stored record's |
| Credentials.NoEnumeration | lib/auth/config.js:17-21 | an unknown email and a wrong password for a known email return the same null |
| Credentials.DependsOnlyOnSubmittedEmail | lib/auth/config.js:17-21 | stores that agree on the record for the submitted email and on its password check give the same outcome and the same calls |
| EdgeConfig.Jwt | lib/auth/edge-config.js:12-17 | without a user the token is returned unchanged; with one, the token's role becomes the user's role (possibly undefined); `sub` and every other claim are preserved |
| EdgeConfig.SessionCallback | lib/auth/edge-config.js:18-24 | without `session.user` the session is unchanged; with it, `user.id` becomes `token.sub` and `user.role` becomes `token.role`, while name, email, image and `expires` stay |
| EdgeConfig.JwtIdempotent | lib/auth/edge-config.js:12-17 | running `jwt` twice with the same user is the same as once |
| EdgeConfig.SessionIdempotent | lib/auth/edge-config.js:18-24 | running `session` twice with the same token is the same as once |
| EdgeConfig.SignInRoleReachesSession | lib/auth/edge-config.js:13-22 | `session` after `jwt` with a user exposes that user's role and the token's subject on `session.user` |
| EdgeConfig.JwtRoundsKeepLatestSignIn | lib/auth/edge-config.js:12-17 | over any sequence of requests, each prepared by the library (a new token with `sub` = the user's id at sign-in, a re-signed previous token otherwise) and then passed to `jwt`: after a sign-in the token's `sub` is the latest signed-in user's id and its role that user's role; with no sign-in both stay as they were, whatever claims are re-issued |
| BuildConfig.WithThepopebot | config/index.js:12-23 | for any configuration object (the two named keys are not also among the other keys), keys other than `distDir` and `serverExternalPackages` are copied unchanged; `distDir` is `NEXT_BUILD_DIR` when set and non-empty, `.next` otherwise; the package list is the user's list (or empty) in order with duplicates kept, then exactly `better-sqlite3`, `drizzle-orm`, `bcrypt-ts`, so its length is the user's plus three |
| BuildConfig.DistDirIsOverridden | config/index.js:13-15 | the user's `distDir` has no influence on the result |
| BuildConfig.OmittedIsEmpty | config/index.js:12 | an omitted argument behaves as `{}` |
| BuildConfig.WrapTwice | config/index.js:16-21 | wrapping twice appends the three packages twice (no de-duplication), while `distDir` and the other keys stay the same |
| AuthFlow.ConfigAgreesWithGate | lib/auth/edge-config.js:8-10 | the sign-in page `/login` is the path the gate lets through without a session and sends home with one; every path that is neither API, static nor the sign-in page is redirected to the sign-in page without a session; the session strategy is `jwt` |
| AuthFlow.StoredIdentityReachesSession | lib/auth/edge-config.js:12-24 | after a successful `authorize`, every later session shows the stored record's id as `user.id` and the role stored for the submitted email as `user.role`, however many requests carry no user and whatever claims the library re-issues on each |

## Left out

- Signing, verifying and expiring the session token are done inside the NextAuth library, which
  is not part of this model. `req.auth` is a boolean, and no token round-trip or tamper property
  is stated.
- The library's step before each `jwt` call (`LibraryStep`) is modelled only in outline. At
  sign-in it builds a new token whose `sub` is the user's id and which has no role. On any other
  request it re-signs the previous token, overwriting the claims other than `sub` and `role` with
  arbitrary new values (issued-at, expiry, token id). The actual claim values and the signature
  are not modelled.
- Strings are sequences of Unicode code points. The matcher's regex has no `u` flag, so
  JavaScript reads UTF-16 code units there. The two readings differ only for characters outside
  the Basic Multilingual Plane. Such a character matches `.` once as a code point but is two code
  units (so `/favicon\U{1F600}ico` is excluded here but gated in JavaScript). Request paths are
  percent-encoded ASCII, so such characters never reach the matcher.
- Records that no JavaScript object maps to are excluded: a configuration whose `rest` repeats
  `distDir` or `serverExternalPackages`, and a token whose `claims` repeat `sub` or `role`
  (`WellFormed`).
- `NextResponse.redirect(new URL(...))` is represented by the target path. `req.url` and the
  response object are not modelled.
- The dynamic `import('../db/users.js')` (lib/auth/config.js:16), `async`/`await`, and the
  store's and bcrypt's internals are left out. Store and password check are total function
  parameters. An exception thrown by the store, which `authorize` would propagate rather than
  turn into `null`, is not modelled.
- Credential fields that are not strings are not modelled: `Submitted` holds optional strings,
  and JavaScript truthiness is "defined and non-empty".
- BuildConfig.WithThepopebot: a `null` argument (which throws a `TypeError` in JavaScript) and a
  non-array `serverExternalPackages` are outside the model's types. Object key order is not
  modelled.
- `Jwt` writes an undefined role as `None`. The model does not tell apart a property set to
  `undefined` from one that is absent.
- The matcher is modelled as the pattern written in the config. Next.js compiles it with extra
  wrapping of its own that the model leaves out: an optional `/_next/data/<build>` prefix, an
  optional `.json` suffix, and an optional trailing delimiter.
- The providers list and the `handlers`, `signIn`, `signOut` and `auth` exports of
  lib/auth/config.js are framework wiring with no decision logic.
- The login flow that mints a token after `authorize` succeeds is library code.
- `screenshot.js`, `take-screenshot.js` and `give-task.js` are browser automation and a one-off
  job script. They are pure I/O and are not part of this model.
- The login path, home path and extension list are hard-coded literals in the code, not
  external configuration. The model uses the same literals.
