/**
 * The two files together: the session, as the interceptor observes it in
 * the cookie jar, is a two-state machine driven by sign-in and sign-out.
 * Unauthenticated goes to Authenticated on a sign-in with the right
 * password; any state goes to Unauthenticated on a sign-out; any other
 * sign-in attempt leaves the state as it was.
 */
module Lifecycle {
  import opened Options
  import opened SessionConfigs
  import opened Cookies
  import opened Handler
  import opened Auth

  datatype AuthState = Unauthenticated | Authenticated

  /**
   * One credential operation between two requests. A sign-in carries the
   * environment it reads, since the secret is looked up afresh each time.
   */
  datatype Operation = SignInWith(password: string, env: map<string, string>) | SignOutNow

  /** The state a jar represents for the next request. */
  function Observe(jar: map<string, Cookie>, config: ResolvedConfig): (state: AuthState)
  {
    if Intercept(config, jar).isAuthenticated then Authenticated else Unauthenticated
  }

  /** The abstract machine's transition, stated without reference to cookies. */
  function Transition(state: AuthState, op: Operation, config: ResolvedConfig): (next: AuthState)
  {
    match op
    case SignOutNow => Unauthenticated
    case SignInWith(password, env) =>
      if password != "" && config.envKey in env && env[config.envKey] == password then Authenticated else state
  }

  function Machine(state: AuthState, ops: seq<Operation>, config: ResolvedConfig): (final: AuthState)
    decreases |ops|
  {
    if ops == [] then state else Machine(Transition(state, ops[0], config), ops[1..], config)
  }

  /** The jar after one operation. */
  function Apply(jar: map<string, Cookie>, op: Operation, config: ResolvedConfig): (after: map<string, Cookie>)
  {
    match op
    case SignOutNow => SignOutJar(jar, config)
    case SignInWith(password, env) => SignInJar(jar, password, env, config)
  }

  /** The jar after a sequence of operations, each in a request with the same configuration. */
  function Run(jar: map<string, Cookie>, ops: seq<Operation>, config: ResolvedConfig): (after: map<string, Cookie>)
    decreases |ops|
  {
    if ops == [] then jar else Run(Apply(jar, ops[0], config), ops[1..], config)
  }

  /** After a successful sign-in, the next interception with the same configuration is authenticated. */
  lemma SignInThenAuthenticated(jar: map<string, Cookie>, password: string, env: map<string, string>, config: ResolvedConfig)
    requires SignInOutcome(password, env, config) == Success
    ensures Intercept(config, SignInJar(jar, password, env, config)).isAuthenticated
  {
  }

  /** After a sign-out, the next interception with the same configuration is not authenticated. */
  lemma SignOutThenUnauthenticated(jar: map<string, Cookie>, config: ResolvedConfig)
    ensures !Intercept(config, SignOutJar(jar, config)).isAuthenticated
  {
  }

  /** One operation on the jar is one transition of the machine. */
  lemma ApplyRefinesTransition(jar: map<string, Cookie>, op: Operation, config: ResolvedConfig)
    ensures Observe(Apply(jar, op, config), config) == Transition(Observe(jar, config), op, config)
  {
  }

  /**
   * Over any sequence of sign-ins and sign-outs, the state the interceptor
   * observes is the state the two-state machine reaches.
   */
  lemma {:induction false} RunRefinesMachine(jar: map<string, Cookie>, ops: seq<Operation>, config: ResolvedConfig)
    ensures Observe(Run(jar, ops, config), config) == Machine(Observe(jar, config), ops, config)
    decreases |ops|
  {
    if ops != [] {
      ApplyRefinesTransition(jar, ops[0], config);
      RunRefinesMachine(Apply(jar, ops[0], config), ops[1..], config);
    }
  }

  /** Over any sequence of operations, cookies other than the configured one are never touched. */
  lemma {:induction false} RunKeepsOtherCookies(jar: map<string, Cookie>, ops: seq<Operation>, config: ResolvedConfig, name: string)
    requires name != config.cookieName
    ensures name in Run(jar, ops, config) <==> name in jar
    ensures name in jar ==> Run(jar, ops, config)[name] == jar[name]
    decreases |ops|
  {
    if ops != [] {
      RunKeepsOtherCookies(Apply(jar, ops[0], config), ops[1..], config, name);
    }
  }

  /**
   * "The configured cookie is absent, or it is the one a successful
   * sign-in writes (marker value, root path, HttpOnly, Secure,
   * SameSite=Lax, the configured max-age)" is an invariant: when the
   * initial jar satisfies it, every sequence of operations preserves it.
   */
  lemma {:induction false} RunWritesOnlySessionCookie(jar: map<string, Cookie>, ops: seq<Operation>, config: ResolvedConfig)
    requires config.cookieName in jar ==> jar[config.cookieName] == SessionCookie(config)
    ensures config.cookieName in Run(jar, ops, config) ==> Run(jar, ops, config)[config.cookieName] == SessionCookie(config)
    decreases |ops|
  {
    if ops != [] {
      RunWritesOnlySessionCookie(Apply(jar, ops[0], config), ops[1..], config);
    }
  }

  /**
   * Default configuration, `SESSION_PASSWORD=secret123`: no cookie, then a
   * sign-in with `secret123` (a seven-day `session=authenticated` cookie),
   * then a sign-out.
   */
  lemma DefaultScenario(env: map<string, string>)
    requires env == map["SESSION_PASSWORD" := "secret123"]
    ensures !Intercept(Resolve(EMPTY_CONFIG), map[]).isAuthenticated
    ensures SignInOutcome("secret123", env, Resolve(EMPTY_CONFIG)) == Success
    ensures SignInJar(map[], "secret123", env, Resolve(EMPTY_CONFIG))
         == map["session" := Cookie("authenticated", CookieOptions("/", true, true, Lax, 604800))]
    ensures Intercept(Resolve(EMPTY_CONFIG), SignInJar(map[], "secret123", env, Resolve(EMPTY_CONFIG))).isAuthenticated
    ensures SignOutJar(SignInJar(map[], "secret123", env, Resolve(EMPTY_CONFIG)), Resolve(EMPTY_CONFIG)) == map[]
  {
  }

  /**
   * The same three requests on the objects: one handle made with no
   * options, one browser jar that outlives each request, fresh locals per
   * request.
   */
  method ThreeRequests(env: map<string, string>) returns (first: bool, signedIn: SignInResult, second: bool, signedOut: SignOutResult, third: bool)
    requires env == map["SESSION_PASSWORD" := "secret123"]
    ensures !first && signedIn == Success && second && signedOut.success && !third
  {
    var handle := new SessionHandle(EMPTY_CONFIG);
    var jar := new CookieJar(map[]);
    var downstream := new Downstream((s: EventState) => Response(200, ""));
    var config := handle.config;
    assert config == DEFAULT_CONFIG;

    var locals1 := new Locals(map[]);
    var request1 := new RequestEvent(jar, locals1);
    var _ := handle.Handle(request1, downstream);
    first := locals1.session.value.isAuthenticated;
    assert !first;
    CorrectPasswordSetsCookie(map[], "secret123", env, config);
    signedIn := SignIn(request1, env, "secret123");
    assert jar.entries == map[config.cookieName := SessionCookie(config)];

    var locals2 := new Locals(map[]);
    var request2 := new RequestEvent(jar, locals2);
    var _ := handle.Handle(request2, downstream);
    second := locals2.session.value.isAuthenticated;
    assert second;
    signedOut := SignOut(request2);
    assert jar.entries == map[];

    var locals3 := new Locals(map[]);
    var request3 := new RequestEvent(jar, locals3);
    var _ := handle.Handle(request3, downstream);
    third := locals3.session.value.isAuthenticated;
  }
}
