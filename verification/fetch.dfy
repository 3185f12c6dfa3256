/**
 * The build-time data importer `fetch.js`: environment validation, the
 * retrying HTTPS client and the per-call-site failure policy.
 *
 * The network is replaced by the outcomes it would produce: one `Attempt`
 * per request the client may issue. Backoff timers are not run; the delay
 * scheduled after each failed attempt is returned as a value. Writing a file
 * is an opaque success or failure.
 */
module Fetch {
  import opened Common

  type Env = map<string, string>

  const UsernameRequired := "GITHUB_USERNAME is required when USE_GITHUB_DATA=true"
  const TokenRequired := "GITHUB_TOKEN is required when USE_GITHUB_DATA=true"
  const MediumDisabled := "MEDIUM_USERNAME not set, Medium integration will be disabled"

  /** The object `validateEnvironment` returns. */
  datatype Config = Config(
    useGithubData: Option<string>,
    useMediumData: Option<string>,
    githubUsername: Option<string>,
    githubToken: Option<string>,
    mediumUsername: Option<string>)

  function ConfigOf(env: Env): Config
  {
    Config(Lookup(env, "USE_GITHUB_DATA"), Lookup(env, "USE_MEDIUM_DATA"),
           Lookup(env, "GITHUB_USERNAME"), Lookup(env, "GITHUB_TOKEN"),
           Lookup(env, "MEDIUM_USERNAME"))
  }

  /** Either the process exits with the collected errors, or validation returns. */
  datatype Validation =
    | Exit(code: int, errors: seq<string>)
    | Validated(config: Config, warnings: seq<string>)

  predicate GithubEnabled(c: Config) { c.useGithubData == Some("true") }
  predicate MediumEnabled(c: Config) { c.useMediumData == Some("true") }

  /**
   * Checks every toggle before deciding: with GitHub enabled a missing
   * username and a missing token each add their own error, and any error
   * ends the process with status 1; a missing Medium username only warns.
   */
  method ValidateEnvironment(env: Env) returns (v: Validation)
    ensures var c := ConfigOf(env);
      v.Exit? <==> GithubEnabled(c) && (!Truthy(c.githubUsername) || !Truthy(c.githubToken))
    ensures v.Exit? ==> v.code == 1
    ensures v.Exit? ==> var c := ConfigOf(env);
      && (UsernameRequired in v.errors <==> !Truthy(c.githubUsername))
      && (TokenRequired in v.errors <==> !Truthy(c.githubToken))
      && (forall e :: e in v.errors ==> e == UsernameRequired || e == TokenRequired)
      && |v.errors| <= 2
    ensures v.Validated? ==> v.config == ConfigOf(env)
    ensures v.Validated? ==> var c := ConfigOf(env);
      && (MediumDisabled in v.warnings <==> MediumEnabled(c) && !Truthy(c.mediumUsername))
      && (forall w :: w in v.warnings ==> w == MediumDisabled)
  {
    var errors: seq<string> := [];
    var warnings: seq<string> := [];
    var c := ConfigOf(env);
    if c.useGithubData == Some("true") {
      if !Truthy(c.githubUsername) {
        errors := errors + [UsernameRequired];
      }
      if !Truthy(c.githubToken) {
        errors := errors + [TokenRequired];
      }
    }
    if c.useMediumData == Some("true") {
      if !Truthy(c.mediumUsername) {
        warnings := warnings + [MediumDisabled];
      }
    }
    if |errors| > 0 {
      return Exit(1, errors);
    }
    return Validated(c, warnings);
  }

  /** What one request produces: a status with its body chunks, or a transport error. */
  datatype Attempt =
    | Response(status: int, chunks: seq<string>)
    | TransportError(message: string)

  /** The error a rejected fetch carries: `statusCode` is set for a bad status. */
  datatype FetchError = BadStatus(statusCode: int) | Transport(message: string)

  datatype FetchResult = Resolved(body: string) | Rejected(error: FetchError)

  /** Status 200 and 422 are both accepted, whichever service is called. */
  predicate Succeeds(a: Attempt)
  {
    a.Response? && (a.status == 200 || a.status == 422)
  }

  function ErrorOf(a: Attempt): FetchError
  {
    match a
    case Response(status, _) => BadStatus(status)
    case TransportError(message) => Transport(message)
  }

  /** The first attempt is always made, so at least one attempt happens. */
  function MaxAttempts(maxRetries: int): (n: nat)
    ensures n >= 1 && n >= maxRetries
    ensures maxRetries >= 1 ==> n == maxRetries
  {
    if maxRetries < 1 then 1 else maxRetries
  }

  function Pow2(n: nat): nat
  {
    if n == 0 then 1 else 2 * Pow2(n - 1)
  }

  /** The delays scheduled after the first `count` failed attempts: `baseDelay * 2^(k-1)` after attempt `k`. */
  function Backoff(baseDelay: int, count: nat): (r: seq<int>)
    ensures |r| == count
    ensures forall k :: 0 <= k < count ==> r[k] == baseDelay * Pow2(k)
  {
    seq(count, k requires 0 <= k < count => baseDelay * Pow2(k))
  }

  /** The backoff is exponential: each delay is twice the one before, starting from the base delay. */
  lemma BackoffDoubles(baseDelay: int, count: nat)
    ensures count > 0 ==> Backoff(baseDelay, count)[0] == baseDelay
    ensures forall k :: 0 < k < count ==> Backoff(baseDelay, count)[k] == 2 * Backoff(baseDelay, count)[k - 1]
  {
  }

  /** The index of the first accepted attempt among the first `n`, if any. */
  function FirstSuccess(attempts: seq<Attempt>, n: nat): (r: Option<nat>)
    requires n <= |attempts|
    ensures r.Some? ==> r.value < n && Succeeds(attempts[r.value])
    ensures r.Some? ==> forall k :: 0 <= k < r.value ==> !Succeeds(attempts[k])
    ensures r.None? <==> forall k :: 0 <= k < n ==> !Succeeds(attempts[k])
  {
    if n == 0 then None
    else match FirstSuccess(attempts, n - 1)
      case Some(k) => Some(k)
      case None => if Succeeds(attempts[n - 1]) then Some(n - 1) else None
  }

  /** How many attempts `fetchWithRetry` makes: up to the first accepted one, or the whole budget. */
  function Made(attempts: seq<Attempt>, maxRetries: int): (n: nat)
    requires MaxAttempts(maxRetries) <= |attempts|
    ensures 1 <= n <= MaxAttempts(maxRetries)
  {
    match FirstSuccess(attempts, MaxAttempts(maxRetries))
    case Some(k) => k + 1
    case None => MaxAttempts(maxRetries)
  }

  /** What `fetchWithRetry` settles with: the first accepted body, or the last failure. */
  function Outcome(attempts: seq<Attempt>, maxRetries: int): (r: FetchResult)
    requires MaxAttempts(maxRetries) <= |attempts|
  {
    match FirstSuccess(attempts, MaxAttempts(maxRetries))
    case Some(k) => Resolved(Concat(attempts[k].chunks))
    case None => Rejected(ErrorOf(attempts[MaxAttempts(maxRetries) - 1]))
  }

  /** The body: all chunks concatenated in arrival order. */
  function Concat(chunks: seq<string>): string
  {
    if chunks == [] then "" else Concat(chunks[..|chunks| - 1]) + chunks[|chunks| - 1]
  }

  /** Reads the body of an accepted response chunk by chunk. */
  method ReadBody(chunks: seq<string>) returns (body: string)
    ensures body == Concat(chunks)
  {
    body := "";
    var j := 0;
    while j < |chunks|
      invariant 0 <= j <= |chunks|
      invariant body == Concat(chunks[..j])
    {
      assert chunks[..j + 1][..j] == chunks[..j];
      body := body + chunks[j];
      j := j + 1;
    }
    assert chunks[..j] == chunks;
  }

  /**
   * `fetchWithRetry`: attempt `k` (1-based) uses `attempts[k - 1]`. The
   * counter rises by one per attempt; after failed attempt `k` the next one
   * is scheduled `baseDelay * 2^(k-1)` ms later, whatever the failure; when
   * the budget is spent the last failure is the rejection.
   */
  method FetchWithRetry(attempts: seq<Attempt>, maxRetries: int, baseDelay: int)
    returns (result: FetchResult, made: nat, delays: seq<int>)
    requires MaxAttempts(maxRetries) <= |attempts|
    ensures 1 <= made <= MaxAttempts(maxRetries)
    ensures forall k :: 0 <= k < made - 1 ==> !Succeeds(attempts[k])
    ensures |delays| == made - 1
    ensures forall k :: 0 <= k < |delays| ==> delays[k] == baseDelay * Pow2(k)
    ensures result.Resolved? <==> Succeeds(attempts[made - 1])
    ensures result.Resolved? ==> result.body == Concat(attempts[made - 1].chunks)
    ensures result.Rejected? ==> made == MaxAttempts(maxRetries)
    ensures result.Rejected? ==> result.error == ErrorOf(attempts[made - 1])
    ensures result == Outcome(attempts, maxRetries) && made == Made(attempts, maxRetries)
    ensures delays == Backoff(baseDelay, made - 1)
  {
    var attempt: nat := 0;
    delays := [];
    while true
      invariant attempt < MaxAttempts(maxRetries)
      invariant forall k :: 0 <= k < attempt ==> !Succeeds(attempts[k])
      invariant |delays| == attempt
      invariant forall k :: 0 <= k < |delays| ==> delays[k] == baseDelay * Pow2(k)
      decreases MaxAttempts(maxRetries) - attempt
    {
      attempt := attempt + 1;
      var outcome := attempts[attempt - 1];
      if Succeeds(outcome) {
        var body := ReadBody(outcome.chunks);
        return Resolved(body), attempt, delays;
      }
      if attempt < maxRetries {
        delays := delays + [baseDelay * Pow2(attempt - 1)];
      } else {
        return Rejected(ErrorOf(outcome)), attempt, delays;
      }
    }
  }

  /** Status 422 counts as success even for the Medium call. */
  method MediumAccepts422(chunks: seq<string>) returns (result: FetchResult)
    ensures result == Resolved(Concat(chunks))
  {
    var made, delays;
    result, made, delays := FetchWithRetry([Response(422, chunks), Response(422, chunks)], 2, 2000);
  }

  const GithubRetries := 3
  const GithubBaseDelay := 1000
  const MediumRetries := 2
  const MediumBaseDelay := 2000

  /** What one run of `fetchAllData` did. */
  datatype Run = Run(
    exitCode: int,
    githubDelays: Option<seq<int>>,   // Some when GitHub was fetched
    mediumDelays: Option<seq<int>>,   // Some when Medium was fetched
    profileJson: Option<string>,      // what this run wrote to ./public/profile.json
    blogsJson: Option<string>)        // what this run wrote to ./public/blogs.json

  /**
   * What a run of `fetchAllData` does for configuration `c`. GitHub is
   * fetched exactly when enabled; its fetch or write failure is rethrown and
   * ends the run with status 1, and the Medium step is then never reached.
   * Otherwise Medium is fetched exactly when enabled with a username, and its
   * failure is logged and swallowed. Each file written holds the first
   * accepted body, and each delay list is the backoff of the failures before
   * it.
   */
  predicate FetchedAll(c: Config, github: seq<Attempt>, githubWriteOk: bool,
                       medium: seq<Attempt>, mediumWriteOk: bool, run: Run)
    requires GithubRetries <= |github| && MediumRetries <= |medium|
  {
    var gh := Outcome(github, GithubRetries);
    var md := Outcome(medium, MediumRetries);
    var githubFailed := GithubEnabled(c) && !(gh.Resolved? && githubWriteOk);
    && run.githubDelays == (if GithubEnabled(c) then Some(Backoff(GithubBaseDelay, Made(github, GithubRetries) - 1)) else None)
    && run.profileJson == (if GithubEnabled(c) && !githubFailed then Some(gh.body) else None)
    && run.exitCode == (if githubFailed then 1 else 0)
    && (githubFailed || !(MediumEnabled(c) && Truthy(c.mediumUsername)) ==>
          run.mediumDelays.None? && run.blogsJson.None?)
    && (!githubFailed && MediumEnabled(c) && Truthy(c.mediumUsername) ==>
          && run.mediumDelays == Some(Backoff(MediumBaseDelay, Made(medium, MediumRetries) - 1))
          && run.blogsJson == (if md.Resolved? && mediumWriteOk then Some(md.body) else None))
  }

  /** `fetchAllData` with `fetchGitHubData` and `fetchMediumData`. */
  method FetchAllData(c: Config, github: seq<Attempt>, githubWriteOk: bool,
                      medium: seq<Attempt>, mediumWriteOk: bool) returns (run: Run)
    requires GithubRetries <= |github| && MediumRetries <= |medium|
    ensures FetchedAll(c, github, githubWriteOk, medium, mediumWriteOk, run)
  {
    run := Run(0, None, None, None, None);
    if c.useGithubData == Some("true") {
      var result, made, delays := FetchWithRetry(github, GithubRetries, GithubBaseDelay);
      run := run.(githubDelays := Some(delays));
      if result.Rejected? || !githubWriteOk {
        // fetchGitHubData rethrows; fetchAllData's catch exits with status 1
        return run.(exitCode := 1);
      }
      run := run.(profileJson := Some(result.body));
    }
    if c.useMediumData == Some("true") && Truthy(c.mediumUsername) {
      var result, made, delays := FetchWithRetry(medium, MediumRetries, MediumBaseDelay);
      run := run.(mediumDelays := Some(delays));
      if result.Resolved? && mediumWriteOk {
        run := run.(blogsJson := Some(result.body));
      }
      // any Medium failure is logged and the run continues
    }
  }

  /** A GitHub failure (every attempt of the budget rejected, or the write failing) is fatal and skips Medium. */
  lemma GithubFailureFatal(c: Config, github: seq<Attempt>, githubWriteOk: bool,
                           medium: seq<Attempt>, mediumWriteOk: bool, run: Run)
    requires GithubRetries <= |github| && MediumRetries <= |medium|
    requires FetchedAll(c, github, githubWriteOk, medium, mediumWriteOk, run)
    requires GithubEnabled(c)
    requires !githubWriteOk || forall k :: 0 <= k < GithubRetries ==> !Succeeds(github[k])
    ensures run.exitCode == 1 && run.profileJson.None?
    ensures run.mediumDelays.None? && run.blogsJson.None?
    ensures githubWriteOk ==> run.githubDelays == Some(Backoff(GithubBaseDelay, GithubRetries - 1))
  {
  }

  /** An accepted GitHub attempt within the budget and a successful write give exit 0 and the first accepted body. */
  lemma GithubSuccessWrites(c: Config, github: seq<Attempt>, medium: seq<Attempt>, mediumWriteOk: bool,
                            run: Run, k: nat)
    requires GithubRetries <= |github| && MediumRetries <= |medium|
    requires FetchedAll(c, github, true, medium, mediumWriteOk, run)
    requires GithubEnabled(c)
    requires k < GithubRetries && Succeeds(github[k]) && forall j :: 0 <= j < k ==> !Succeeds(github[j])
    ensures run.exitCode == 0
    ensures run.profileJson == Some(Concat(github[k].chunks))
    ensures run.githubDelays == Some(Backoff(GithubBaseDelay, k))
  {
  }

  /** After a good GitHub step, Medium's failures are swallowed: the run still exits 0, without blogs.json. */
  lemma MediumFailureSwallowed(c: Config, github: seq<Attempt>, githubWriteOk: bool,
                               medium: seq<Attempt>, mediumWriteOk: bool, run: Run)
    requires GithubRetries <= |github| && MediumRetries <= |medium|
    requires FetchedAll(c, github, githubWriteOk, medium, mediumWriteOk, run)
    requires run.exitCode == 0 && MediumEnabled(c) && Truthy(c.mediumUsername)
    requires forall k :: 0 <= k < MediumRetries ==> !Succeeds(medium[k])
    ensures run.blogsJson.None? && run.mediumDelays == Some(Backoff(MediumBaseDelay, MediumRetries - 1))
  {
  }

  /** What the whole script does: validation first, then the fetches. */
  datatype Script = Aborted(errors: seq<string>) | Completed(warnings: seq<string>, run: Run)

  method RunScript(env: Env, github: seq<Attempt>, githubWriteOk: bool,
                   medium: seq<Attempt>, mediumWriteOk: bool) returns (s: Script)
    requires GithubRetries <= |github| && MediumRetries <= |medium|
    ensures var c := ConfigOf(env);
      s.Aborted? <==> GithubEnabled(c) && (!Truthy(c.githubUsername) || !Truthy(c.githubToken))
    ensures s.Aborted? ==> s.errors != []
    ensures s.Completed? ==> FetchedAll(ConfigOf(env), github, githubWriteOk, medium, mediumWriteOk, s.run)
    ensures s.Completed? && GithubEnabled(ConfigOf(env)) ==>
      Truthy(ConfigOf(env).githubUsername) && Truthy(ConfigOf(env).githubToken)
  {
    var v := ValidateEnvironment(env);
    if v.Exit? {
      // process.exit(1) before any request is issued
      return Aborted(v.errors);
    }
    var run := FetchAllData(v.config, github, githubWriteOk, medium, mediumWriteOk);
    return Completed(v.warnings, run);
  }
}
