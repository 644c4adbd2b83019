/**
 * The two credential operations (src/lib/auth.remote.ts): the `signIn`
 * form and the `signOut` command. Each reads the configuration the
 * interceptor attached to the current request and changes the request's
 * cookie jar. A thrown `error(...)` or `invalid(...)` is a returned
 * outcome here.
 */
module Auth {
  import opened Options
  import opened SessionConfigs
  import opened Cookies
  import opened Handler

  /** The form field that carries the password; issues are reported against it. */
  const PASSWORD_FIELD := "_password"

  const PASSWORD_REQUIRED := "Password is required"
  const PASSWORD_WRONG := "Password is wrong"
  const CONFIGURATION_ERROR := "Server configuration error"

  /**
   * `{ success: true }`, a field issue raised by the schema or by
   * `invalid(issue._password(...))`, or an HTTP error raised by `error(...)`.
   */
  datatype SignInResult =
    | Success
    | FieldIssue(field: string, message: string)
    | ServerError(status: int, message: string)

  datatype SignOutResult = SignOutResult(success: bool)

  /** The schema `v.pipe(v.string(), v.nonEmpty('Password is required'))`: an issue, or none. */
  function ValidatePassword(password: string): (issue: Option<SignInResult>)
    ensures issue.Some? <==> |password| == 0
    ensures issue.Some? ==> issue.value == FieldIssue("_password", "Password is required")
  {
    if password == "" then Some(FieldIssue(PASSWORD_FIELD, PASSWORD_REQUIRED)) else None
  }

  /** `env[key]` read through a falsy test: the secret, unless it is undefined or the empty string. */
  function Secret(env: map<string, string>, key: string): (s: Option<string>)
    ensures s.Some? <==> key in env && env[key] != ""
    ensures s.Some? ==> s.value == env[key] && |s.value| > 0
  {
    if key in env && env[key] != "" then Some(env[key]) else None
  }

  /** The cookie a successful sign-in writes under `config.cookieName`. */
  function SessionCookie(config: ResolvedConfig): (c: Cookie)
    ensures c.value == "authenticated"
    ensures c.options == CookieOptions("/", true, true, Lax, config.maxAge)
  {
    Cookie(AUTHENTICATED, CookieOptions("/", true, true, Lax, config.maxAge))
  }

  /** The outcome of `signIn` with a password, an environment and the request's configuration. */
  function SignInOutcome(password: string, env: map<string, string>, config: ResolvedConfig): (r: SignInResult)
    ensures r == Success <==> password != "" && config.envKey in env && env[config.envKey] == password
    ensures r.ServerError? <==> password != "" && (config.envKey !in env || env[config.envKey] == "")
    ensures r.ServerError? ==> r == ServerError(500, "Server configuration error")
    ensures r.FieldIssue? ==> r.field == "_password"
    ensures r.FieldIssue? ==> (r.message == "Password is required" <==> password == "")
  {
    if ValidatePassword(password).Some? then ValidatePassword(password).value
    else
      match Secret(env, config.envKey)
      case None => ServerError(500, CONFIGURATION_ERROR)
      case Some(expected) =>
        if password != expected then FieldIssue(PASSWORD_FIELD, PASSWORD_WRONG) else Success
  }

  /** The jar after `signIn`: the session cookie written on success, nothing changed otherwise. */
  function SignInJar(jar: map<string, Cookie>, password: string, env: map<string, string>, config: ResolvedConfig): (r: map<string, Cookie>)
    ensures SignInOutcome(password, env, config) != Success ==> r == jar
    ensures SignInOutcome(password, env, config) == Success ==>
      config.cookieName in r && r[config.cookieName] == SessionCookie(config)
    ensures r.Keys == jar.Keys || r.Keys == jar.Keys + {config.cookieName}
    ensures forall name :: name in jar && name != config.cookieName ==> name in r && r[name] == jar[name]
  {
    if SignInOutcome(password, env, config) == Success then jar[config.cookieName := SessionCookie(config)] else jar
  }

  /** The jar after `signOut`: the configured cookie is gone, every other entry is as it was. */
  function SignOutJar(jar: map<string, Cookie>, config: ResolvedConfig): (r: map<string, Cookie>)
    ensures config.cookieName !in r
    ensures r.Keys == jar.Keys - {config.cookieName}
    ensures forall name :: name in r ==> r[name] == jar[name]
  {
    jar - {config.cookieName}
  }

  /**
   * `signIn`: the schema first, then the handler body with its two early
   * exits, then the cookie write.
   */
  method SignIn(event: RequestEvent, env: map<string, string>, password: string) returns (r: SignInResult)
    modifies event.cookies
    ensures r == SignInOutcome(password, env, GetSessionConfig(event))
    ensures event.cookies.entries == SignInJar(old(event.cookies.entries), password, env, GetSessionConfig(event))
  {
    var issue := ValidatePassword(password);
    if issue.Some? {
      return issue.value;
    }
    var config := GetSessionConfig(event);
    var expectedPassword := Secret(env, config.envKey);
    if expectedPassword.None? {
      return ServerError(500, CONFIGURATION_ERROR);
    }
    if password != expectedPassword.value {
      return FieldIssue(PASSWORD_FIELD, PASSWORD_WRONG);
    }
    event.cookies.Set(config.cookieName, AUTHENTICATED, CookieOptions("/", true, true, Lax, config.maxAge));
    return Success;
  }

  /** `signOut`: delete the configured cookie at the site root, always succeeding. */
  method SignOut(event: RequestEvent) returns (r: SignOutResult)
    modifies event.cookies
    ensures r.success
    ensures event.cookies.entries == SignOutJar(old(event.cookies.entries), GetSessionConfig(event))
  {
    var config := GetSessionConfig(event);
    event.cookies.Delete(config.cookieName, "/");
    return SignOutResult(true);
  }

  /**
   * An empty password is turned away by the schema before the handler body
   * runs: the outcome does not depend on the environment or on the
   * configuration (no secret is read) and the jar is left alone.
   */
  lemma EmptyPasswordRejected(jar: map<string, Cookie>, env: map<string, string>, other: map<string, string>, config: ResolvedConfig, otherConfig: ResolvedConfig)
    ensures SignInOutcome("", env, config) == FieldIssue("_password", "Password is required")
    ensures SignInOutcome("", env, config) == SignInOutcome("", other, otherConfig)
    ensures SignInJar(jar, "", env, config) == jar
  {
  }

  /** An unset or empty secret is a server-side misconfiguration: a generic 500, the jar untouched. */
  lemma MissingSecretIsServerError(jar: map<string, Cookie>, password: string, env: map<string, string>, config: ResolvedConfig)
    requires password != ""
    requires config.envKey !in env || env[config.envKey] == ""
    ensures SignInOutcome(password, env, config) == ServerError(500, "Server configuration error")
    ensures SignInJar(jar, password, env, config) == jar
  {
  }

  /** A non-empty password that differs from the secret: an issue on `_password`, the jar untouched. */
  lemma WrongPasswordIsFieldIssue(jar: map<string, Cookie>, password: string, env: map<string, string>, config: ResolvedConfig)
    requires password != ""
    requires config.envKey in env && env[config.envKey] != "" && env[config.envKey] != password
    ensures SignInOutcome(password, env, config) == FieldIssue("_password", "Password is wrong")
    ensures SignInJar(jar, password, env, config) == jar
  {
  }

  /**
   * The exact (case-sensitive) secret: success, and the jar afterwards is
   * the old jar with the configured entry set to the session cookie.
   */
  lemma CorrectPasswordSetsCookie(jar: map<string, Cookie>, password: string, env: map<string, string>, config: ResolvedConfig)
    requires password != ""
    requires config.envKey in env && env[config.envKey] == password
    ensures SignInOutcome(password, env, config) == Success
    ensures SignInJar(jar, password, env, config) == jar[config.cookieName := Cookie("authenticated", CookieOptions("/", true, true, Lax, config.maxAge))]
  {
  }

  /** Signing in twice leaves the same jar as signing in once. */
  lemma SignInIdempotent(jar: map<string, Cookie>, password: string, env: map<string, string>, config: ResolvedConfig)
    ensures SignInJar(SignInJar(jar, password, env, config), password, env, config) == SignInJar(jar, password, env, config)
  {
  }

  /** Signing out twice leaves the same jar as signing out once. */
  lemma SignOutIdempotent(jar: map<string, Cookie>, config: ResolvedConfig)
    ensures SignOutJar(SignOutJar(jar, config), config) == SignOutJar(jar, config)
  {
  }
}
