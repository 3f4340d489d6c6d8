/** `withThepopebot` of `config/index.js`: wraps a Next.js configuration object, forcing the build
    directory and appending the server-side packages the bot needs. The process environment is a
    parameter. */
module BuildConfig {
  import opened Wrappers

  const BuildDirVariable := "NEXT_BUILD_DIR"
  const DefaultDistDir := ".next"

  /** The packages appended after the user's own, in this order. */
  const BundledPackages: seq<string> := ["better-sqlite3", "drizzle-orm", "bcrypt-ts"]

  /** A Next.js configuration object: the two keys the wrapper writes, and `rest`, every other
      key with its value of type `V`. */
  datatype NextConfig<V> = NextConfig(distDir: Option<string>,
                                      serverExternalPackages: Option<seq<string>>,
                                      rest: map<string, V>) {
    /** A configuration some JavaScript object maps to: the two named keys are not also in
        `rest`. */
    predicate WellFormed() {
      "distDir" !in rest && "serverExternalPackages" !in rest
    }
  }

  /** The default argument `{}`. */
  function EmptyConfig<V>(): NextConfig<V> {
    NextConfig(None, None, map[])
  }

  /** `process.env.NEXT_BUILD_DIR || '.next'`. */
  function BuildDir(env: map<string, string>): string {
    if BuildDirVariable in env && env[BuildDirVariable] != "" then env[BuildDirVariable]
    else DefaultDistDir
  }

  /** `withThepopebot(nextConfig = {})`; `None` is an omitted argument. */
  function WithThepopebot<V>(nextConfig: Option<NextConfig<V>>, env: map<string, string>)
    : (r: NextConfig<V>)
    requires nextConfig.Some? ==> nextConfig.value.WellFormed()
    ensures r.WellFormed()
    // Every other key is copied unchanged.
    ensures r.rest == nextConfig.GetOr(EmptyConfig()).rest
    // The build directory comes from the environment alone; any user value is overridden.
    ensures r.distDir.Some?
    ensures BuildDirVariable in env && env[BuildDirVariable] != "" ==>
              r.distDir.value == env[BuildDirVariable]
    ensures !(BuildDirVariable in env && env[BuildDirVariable] != "") ==>
              r.distDir.value == DefaultDistDir
    // The user's packages, in their order and with their duplicates, then exactly the three
    // bundled ones.
    ensures r.serverExternalPackages.Some?
    ensures var user := nextConfig.GetOr(EmptyConfig()).serverExternalPackages.GetOr([]);
            var packages := r.serverExternalPackages.value;
            && |packages| == |user| + 3
            && (forall i | 0 <= i < |user| :: packages[i] == user[i])
            && packages[|user|] == "better-sqlite3"
            && packages[|user| + 1] == "drizzle-orm"
            && packages[|user| + 2] == "bcrypt-ts"
  {
    var base := nextConfig.GetOr(EmptyConfig());
    base.(distDir := Some(BuildDir(env)),
          serverExternalPackages := Some(base.serverExternalPackages.GetOr([]) + BundledPackages))
  }

  /** The result depends on the user's `distDir` not at all. */
  lemma DistDirIsOverridden<V>(config: NextConfig<V>, dir: Option<string>, env: map<string, string>)
    requires config.WellFormed()
    ensures WithThepopebot(Some(config.(distDir := dir)), env) == WithThepopebot(Some(config), env)
  {
  }

  /** An omitted argument behaves as `{}`. */
  lemma OmittedIsEmpty<V>(env: map<string, string>)
    ensures WithThepopebot(None, env) == WithThepopebot(Some(EmptyConfig<V>()), env)
  {
  }

  /** Wrapping twice appends the bundled packages twice: nothing is de-duplicated, so the wrapper
      is not idempotent, while the build directory and the other keys are stable. */
  lemma WrapTwice<V>(config: NextConfig<V>, env: map<string, string>)
    requires config.WellFormed()
    ensures var once := WithThepopebot(Some(config), env);
            var twice := WithThepopebot(Some(once), env);
            && twice.distDir == once.distDir
            && twice.rest == once.rest
            && twice.serverExternalPackages.value
               == config.serverExternalPackages.GetOr([]) + BundledPackages + BundledPackages
  {
  }
}
