/**
 * The request interceptor returned by `handleSession` and the helper that
 * reads the attached configuration back (src/lib/handler.ts).
 */
module Handler {
  import opened Options
  import opened SessionConfigs
  import opened Cookies

  /** The only cookie value that means "signed in". */
  const AUTHENTICATED := "authenticated"

  datatype Session = Session(isAuthenticated: bool)

  /** `sessionCookie === 'authenticated'`: only the exact marker counts; `undefined` does not. */
  function IsAuthenticated(sessionCookie: Option<string>): (b: bool)
    ensures b <==> sessionCookie == Some("authenticated")
  {
    sessionCookie.Some? && sessionCookie.value == AUTHENTICATED
  }

  /** The session the interceptor derives from a jar under a configuration. */
  function Intercept(config: ResolvedConfig, jar: map<string, Cookie>): (s: Session)
    ensures s.isAuthenticated <==> config.cookieName in jar && jar[config.cookieName].value == "authenticated"
  {
    Session(IsAuthenticated(Lookup(jar, config.cookieName)))
  }

  /** No cookie of the configured name: not authenticated. */
  lemma InterceptAbsent(config: ResolvedConfig, jar: map<string, Cookie>)
    requires config.cookieName !in jar
    ensures !Intercept(config, jar).isAuthenticated
  {
  }

  /** A cookie of the configured name holding anything but the marker: not authenticated. */
  lemma InterceptOtherValue(config: ResolvedConfig, jar: map<string, Cookie>)
    requires config.cookieName in jar && jar[config.cookieName].value != AUTHENTICATED
    ensures !Intercept(config, jar).isAuthenticated
  {
  }

  /** The flag depends on the configured cookie's value alone, not on its attributes or on other cookies. */
  lemma InterceptLocal(config: ResolvedConfig, jar: map<string, Cookie>, other: map<string, Cookie>)
    requires config.cookieName in jar <==> config.cookieName in other
    requires config.cookieName in jar ==> jar[config.cookieName].value == other[config.cookieName].value
    ensures Intercept(config, jar) == Intercept(config, other)
  {
  }

  /**
   * `event.locals`, seen as `SessionLocals`: the two fields this library
   * writes, and the fields the application adds by augmenting `App.Locals`
   * (kept opaque as a map from field name to value).
   */
  class Locals {
    var session: Option<Session>
    var sessionConfig: Option<ResolvedConfig>
    var app: map<string, string>

    /** Fresh request-scoped state, before any interceptor has run. */
    constructor (app: map<string, string>)
      ensures session == None && sessionConfig == None && this.app == app
    {
      session := None;
      sessionConfig := None;
      this.app := app;
    }
  }

  /** The request event: its cookie jar and its request-scoped state. */
  class RequestEvent {
    const cookies: CookieJar
    const locals: Locals

    constructor (cookies: CookieJar, locals: Locals)
      ensures this.cookies == cookies && this.locals == locals
    {
      this.cookies := cookies;
      this.locals := locals;
    }

    /** What a downstream handler can observe of the event. */
    function State(): (s: EventState)
      reads this, cookies, locals
      ensures s.cookies == cookies.entries && s.session == locals.session
      ensures s.sessionConfig == locals.sessionConfig && s.app == locals.app
    {
      EventState(cookies.entries, locals.session, locals.sessionConfig, locals.app)
    }
  }

  datatype EventState = EventState(
    cookies: map<string, Cookie>,
    session: Option<Session>,
    sessionConfig: Option<ResolvedConfig>,
    app: map<string, string>)

  /** Whatever the host's handling of a request produces; kept abstract. */
  datatype Response = Response(status: int, body: string)

  /**
   * The `resolve` callback the host passes to a handle: the rest of the
   * request pipeline. It answers as a fixed function of what it observes
   * of the event, and records every event it is called with.
   */
  class Downstream {
    const respond: EventState -> Response
    var calls: seq<RequestEvent>

    constructor (respond: EventState -> Response)
      ensures this.respond == respond && calls == []
    {
      this.respond := respond;
      calls := [];
    }

    method Resolve(event: RequestEvent) returns (response: Response)
      modifies this
      ensures calls == old(calls) + [event]
      ensures response == respond(event.State())
    {
      calls := calls + [event];
      response := respond(event.State());
    }
  }

  /**
   * The closure `handleSession(config)` returns. The configuration is
   * merged once, when the handle is made, and closed over.
   */
  class SessionHandle {
    const config: ResolvedConfig

    /** `handleSession(config)`. */
    constructor (options: SessionConfig)
      ensures config == Resolve(options)
    {
      config := Resolve(options);
    }

    /**
     * One request: read the session cookie, attach the session and the
     * configuration to `event.locals`, then hand the event on exactly once
     * and return the downstream response as it is.
     */
    method Handle(event: RequestEvent, resolve: Downstream) returns (response: Response)
      modifies event.locals, resolve
      ensures event.locals.session == Some(Intercept(config, event.cookies.entries))
      ensures event.locals.sessionConfig == Some(config) && GetSessionConfig(event) == config
      ensures event.locals.app == old(event.locals.app)
      ensures event.cookies.entries == old(event.cookies.entries)
      ensures resolve.calls == old(resolve.calls) + [event]
      ensures response == resolve.respond(event.State())
    {
      var sessionCookie := event.cookies.Get(config.cookieName);
      var isAuthenticated := IsAuthenticated(sessionCookie);
      var locals := event.locals;
      locals.session := Some(Session(isAuthenticated));
      locals.sessionConfig := Some(config);
      response := resolve.Resolve(event);
    }
  }

  /** `getSessionConfig(event)`: the attached configuration, or the defaults before the interceptor ran. */
  function GetSessionConfig(event: RequestEvent): (c: ResolvedConfig)
    reads event, event.locals
    ensures event.locals.sessionConfig.Some? ==> c == event.locals.sessionConfig.value
    ensures event.locals.sessionConfig.None? ==> c == Resolve(EMPTY_CONFIG)
  {
    if event.locals.sessionConfig.Some? then event.locals.sessionConfig.value else DEFAULT_CONFIG
  }
}
