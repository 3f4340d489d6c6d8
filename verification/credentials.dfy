/** The `authorize` callback of the Credentials provider in `lib/auth/config.js`. The user store
    and the password check are parameters: `lookup` is `getUserByEmail` and `verify` is
    `verifyPassword`. The callback also reports the store calls it made, in order, so that
    "the store is never consulted" is something a contract can say. */
module Credentials {
  import opened Wrappers
  import opened EdgeConfig

  /** A stored user record. `passwordHash` stands for every stored field the callback drops. */
  datatype User = User(id: string, email: string, role: Option<string>, passwordHash: string)

  /** The submitted form; a field the form did not send is `None`. */
  datatype Submitted = Submitted(email: Option<string>, password: Option<string>)

  /** One call into the store. */
  datatype StoreCall = LookupByEmail(email: string) | VerifyPassword(user: User, password: string)

  /** What a call to `authorize` returns (`None` is `null`) and the store calls it made. */
  datatype Attempt = Attempt(result: Option<AuthorizedUser>, calls: seq<StoreCall>)

  /** JavaScript truthiness of an optional string: defined and not empty. */
  predicate Present(field: Option<string>) {
    field.Some? && field.value != ""
  }

  /** Both fields are present; `credentials` itself may be missing (`credentials?.email`). */
  predicate BothPresent(credentials: Option<Submitted>) {
    credentials.Some? && Present(credentials.value.email) && Present(credentials.value.password)
  }

  /** The reference condition for a successful sign-in: both fields present, a user stored under
      exactly the submitted email, and a password that checks against that user. */
  predicate Accepts(credentials: Option<Submitted>, lookup: string -> Option<User>,
                    verify: (User, string) -> bool)
  {
    && BothPresent(credentials)
    && lookup(credentials.value.email.value).Some?
    && verify(lookup(credentials.value.email.value).value, credentials.value.password.value)
  }

  function Authorize(credentials: Option<Submitted>, lookup: string -> Option<User>,
                     verify: (User, string) -> bool): (a: Attempt)
    // Short circuit: a missing or empty field fails without touching the store.
    ensures !BothPresent(credentials) ==> a == Attempt(None, [])
    // The store is asked about exactly the submitted email, and the password check, if made,
    // gets the user the store returned together with the submitted password.
    ensures BothPresent(credentials) ==>
              && 1 <= |a.calls| <= 2
              && a.calls[0] == LookupByEmail(credentials.value.email.value)
              && (|a.calls| == 2 <==> lookup(credentials.value.email.value).Some?)
              && (|a.calls| == 2 ==>
                    a.calls[1] == VerifyPassword(lookup(credentials.value.email.value).value,
                                                 credentials.value.password.value))
    // Success exactly under the reference condition; every failure is the same `null`.
    ensures a.result.Some? <==> Accepts(credentials, lookup, verify)
    // The returned identity comes from the stored record, not from the form.
    ensures a.result.Some? ==>
              var stored := lookup(credentials.value.email.value).value;
              a.result.value.id == stored.id && a.result.value.email == stored.email
              && a.result.value.role == stored.role
  {
    if !BothPresent(credentials) then Attempt(None, [])
    else
      var email, password := credentials.value.email.value, credentials.value.password.value;
      var found := lookup(email);
      if found.None? then Attempt(None, [LookupByEmail(email)])
      else
        var user := found.value;
        var checks := [LookupByEmail(email), VerifyPassword(user, password)];
        if !verify(user, password) then Attempt(None, checks)
        else Attempt(Some(AuthorizedUser(user.id, user.email, user.role)), checks)
  }

  /** An unknown email and a wrong password for a known one give the caller the same answer. */
  lemma NoEnumeration(email: string, password: string, lookup: string -> Option<User>,
                      verify: (User, string) -> bool, known: string -> Option<User>)
    requires email != "" && password != ""
    requires lookup(email).None?
    requires known(email).Some? && !verify(known(email).value, password)
    ensures Authorize(Some(Submitted(Some(email), Some(password))), lookup, verify).result
         == Authorize(Some(Submitted(Some(email), Some(password))), known, verify).result
         == None
  {
  }

  /** Only the record stored under the submitted email, and the password check on that record,
      decide the outcome: stores that agree there give the same result. */
  lemma DependsOnlyOnSubmittedEmail(credentials: Option<Submitted>,
                                    lookup1: string -> Option<User>, lookup2: string -> Option<User>,
                                    verify1: (User, string) -> bool, verify2: (User, string) -> bool)
    requires BothPresent(credentials)
    requires lookup1(credentials.value.email.value) == lookup2(credentials.value.email.value)
    requires lookup1(credentials.value.email.value).Some? ==>
               verify1(lookup1(credentials.value.email.value).value, credentials.value.password.value)
               == verify2(lookup1(credentials.value.email.value).value, credentials.value.password.value)
    ensures Authorize(credentials, lookup1, verify1) == Authorize(credentials, lookup2, verify2)
  {
  }
}
