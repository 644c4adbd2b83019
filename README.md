# sk-sesher session gate, modelled in Dafny

sk-sesher is a password gate for SvelteKit. One shared secret, held in a
server environment variable, protects the whole site. The library has three
parts:

- `handleSession(options)` merges the user's options over the defaults
  (environment key `SESSION_PASSWORD`, cookie `session`, max-age 604800
  seconds). It returns a handle that runs once per request. The handle reads
  the session cookie and sets `locals.session.isAuthenticated`. That flag is
  true exactly when the cookie holds `"authenticated"`. The handle also
  stores the resolved configuration in `locals._sessionConfig` and then calls
  `resolve(event)` once.
- `getSessionConfig(event)` returns that stored configuration, or the
  defaults when the handle has not run.
- `signIn` checks its input first, then the secret, then the password.
  The schema rejects an empty password. An unset or empty secret gives a
  500. A wrong password gives a field issue on `_password`. The right
  password sets the session cookie with fixed attributes. `signOut` deletes
  that cookie every time it is called.

The model is split into six files:

- `options.dfy`: the `Option` type.
- `config.dfy` (module `SessionConfigs`): the configuration types, the
  defaults and the merge.
- `cookies.dfy` (module `Cookies`): the request's cookie jar, as a class
  over a `map` from cookie name to cookie.
- `handler.dfy` (module `Handler`): the request-scoped `Locals`, the
  `RequestEvent`, the downstream `resolve` callback, the handle made by
  `handleSession` and `getSessionConfig`.
- `auth.dfy` (module `Auth`): `signIn` and `signOut`, each as a method on
  the event together with the pure function that specifies it.
- `lifecycle.dfy` (module `Lifecycle`): the two files working together. It
  proves that the session, as the next request sees it, follows a two-state
  machine over any sequence of sign-ins and sign-outs. It also walks three
  requests end to end on the objects.

A thrown `error(500, …)` or `invalid(…)` becomes a returned `SignInResult`.
The environment is a `map<string, string>` passed as a parameter, and it is
read again on each sign-in. The ambient `getRequestEvent()` becomes an
explicit event parameter.

Each option's JSDoc `@default` (src/lib/handler.ts:6, 13, 18) suggests a
per-field fallback. The code spreads objects instead
(`{ ...DEFAULT_CONFIG, ...config }`), and the two differ for a field that is
present but holds `undefined`; see Findings. An empty secret: the falsy test
at src/lib/auth.remote.ts:39 treats it like an unset variable, and the model
follows the code.

## Model

| member | source | states |
|---|---|---|
| SessionConfigs.Resolve | src/lib/handler.ts:66-67 | each resolved field is the user's value when one is given and the field's default (`SESSION_PASSWORD`, `session`, 604800) otherwise |
| SessionConfigs.ResolveEmpty | src/lib/handler.ts:33-37 | resolving `{}` gives exactly `("SESSION_PASSWORD", "session", 604800)`, i.e. `DEFAULT_CONFIG` |
| SessionConfigs.ResolveFieldwise | src/lib/handler.ts:67 | fields merge independently: two options that agree on one field resolve to the same value of that field |
| SessionConfigs.ResolveComplete | src/lib/handler.ts:67 | a fully given configuration resolves to itself |
| SessionConfigs.SpreadMerge | src/lib/handler.ts:67 | the object spread as written: a missing key takes the default, and a present key (even one holding `undefined`) is copied over it |
| SessionConfigs.SpreadLosesDefault | src/lib/handler.ts:67 | counterexample: with `cookieName: undefined` the spread leaves the cookie name undefined where the corrected merge gives `"session"`; same for `envKey` and `maxAge` |
| SessionConfigs.SpreadAgreesWithResolve | src/lib/handler.ts:67 | when no field holds `undefined`, the spread is complete and equals the corrected merge field by field |
| Cookies.Lookup | src/lib/handler.ts:70 | `cookies.get(name)` is defined exactly when the jar has that name, and then it is that cookie's value |
| Cookies.CookieJar.Get | src/lib/handler.ts:70 | reading the jar object is defined exactly when its entries hold that name, and then gives that cookie's value; it changes nothing |
| Cookies.CookieJar.Set | src/lib/auth.remote.ts:46-52 | the jar afterwards is the old jar with that one name mapped to the new value and options |
| Cookies.CookieJar.Delete | src/lib/auth.remote.ts:77-79 | the jar afterwards is the old jar without that name, whether or not it was there |
| Handler.IsAuthenticated | src/lib/handler.ts:71 | true if and only if the cookie value is exactly `"authenticated"`; `undefined` gives false |
| Handler.Intercept | src/lib/handler.ts:70-71 | authenticated if and only if the jar holds the configured cookie name with the value `"authenticated"` |
| Handler.InterceptAbsent | src/lib/handler.ts:70-71 | no cookie of the configured name gives not authenticated |
| Handler.InterceptOtherValue | src/lib/handler.ts:71 | any value other than the marker gives not authenticated |
| Handler.InterceptLocal | src/lib/handler.ts:70-71 | the flag depends only on the configured cookie's value, not on its attributes or on other cookies |
| Handler.SessionHandle.constructor | src/lib/handler.ts:66-67 | `handleSession(options)` closes over `Resolve(options)` |
| Handler.SessionHandle.Handle | src/lib/handler.ts:69-88 | after the call, `locals.session` is the computed flag and `locals._sessionConfig` is the closed-over configuration, so `getSessionConfig` returns it. The application's own locals fields and the cookie jar are unchanged by the interceptor itself (what the downstream does is left out; see `Handler.Downstream.Resolve` under Left out). `resolve` has been called exactly once more, with this event, and its response is returned as is |
| Handler.Downstream.Resolve | src/lib/handler.ts:87 | the downstream call records the event it was given and answers from that event's state |
| Handler.GetSessionConfig | src/lib/handler.ts:95-98 | the attached configuration when there is one, else the resolved empty configuration (`DEFAULT_CONFIG`) |
| Auth.ValidatePassword | src/lib/auth.remote.ts:30-32 | the schema raises an issue exactly for the empty password: `"Password is required"` on `_password` |
| Auth.Secret | src/lib/auth.remote.ts:37-39 | the secret is available exactly when the key is set to a non-empty string (the falsy test) |
| Auth.SessionCookie | src/lib/auth.remote.ts:46-52 | value `"authenticated"`, path `/`, HttpOnly, Secure, SameSite=Lax, max-age from the configuration |
| Auth.SignInOutcome | src/lib/auth.remote.ts:29-55 | success if and only if the password is non-empty and exactly equals the secret. A 500 `"Server configuration error"` if and only if the password is non-empty and the secret is unset or empty; the message never names the variable. Every field issue is on `_password`, and it is `"Password is required"` exactly for the empty password |
| Auth.SignInJar | src/lib/auth.remote.ts:44-52 | any outcome but success leaves the jar unchanged. Success sets the configured cookie to the session cookie. No other entry is touched |
| Auth.SignOutJar | src/lib/auth.remote.ts:77-79 | the configured cookie is gone and every other entry is as it was |
| Auth.SignIn | src/lib/auth.remote.ts:29-56 | the method returns `SignInOutcome` and leaves the jar as `SignInJar` says, using the configuration attached to the event |
| Auth.SignOut | src/lib/auth.remote.ts:73-82 | always reports success and leaves the jar as `SignOutJar` says, using the configuration attached to the event |
| Auth.EmptyPasswordRejected | src/lib/auth.remote.ts:30-33 | an empty password gives `"Password is required"` whatever the environment and configuration hold, so no secret is consulted, and the jar is unchanged |
| Auth.MissingSecretIsServerError | src/lib/auth.remote.ts:37-42 | an unset or empty secret gives a 500 `"Server configuration error"` and leaves the jar unchanged |
| Auth.WrongPasswordIsFieldIssue | src/lib/auth.remote.ts:44 | a non-empty password that is not the secret gives `"Password is wrong"` on `_password` and leaves the jar unchanged |
| Auth.CorrectPasswordSetsCookie | src/lib/auth.remote.ts:44-54 | the exact secret gives success, and the jar becomes the old jar with the configured name mapped to the session cookie |
| Auth.SignInIdempotent | src/lib/auth.remote.ts:46-52 | signing in twice gives the same jar as signing in once |
| Auth.SignOutIdempotent | src/lib/auth.remote.ts:77-79 | signing out twice gives the same jar as signing out once |
| Lifecycle.SignInThenAuthenticated | src/lib/auth.remote.ts:46 | after a successful sign-in, the next interception with the same configuration is authenticated |
| Lifecycle.SignOutThenUnauthenticated | src/lib/auth.remote.ts:77 | after a sign-out, the next interception with the same configuration is not authenticated |
| Lifecycle.ApplyRefinesTransition | src/lib/auth.remote.ts:44-79 | one sign-in or sign-out on the jar is one transition of the two-state machine |
| Lifecycle.RunRefinesMachine | src/lib/auth.remote.ts:44-79 | over any sequence of operations, the state the interceptor observes is the state the machine reaches |
| Lifecycle.RunKeepsOtherCookies | src/lib/auth.remote.ts:46-79 | over any sequence of operations, cookies with other names are never added, removed or changed |
| Lifecycle.RunWritesOnlySessionCookie | src/lib/auth.remote.ts:46-52 | once the configured cookie is either absent or the session cookie, it stays so over any sequence of operations |
| Lifecycle.DefaultScenario | src/lib/handler.ts:33-37 | with the defaults and `SESSION_PASSWORD=secret123`: no cookie means unauthenticated; `secret123` signs in and writes a seven-day `session=authenticated` cookie; the next request is authenticated; sign-out empties the jar |
| Lifecycle.ThreeRequests | src/lib/handler.ts:69-88 | that scenario run on the objects: one handle, one jar shared by three requests, fresh locals for each request |

## Left out

- The SvelteKit plumbing: the `Handle` and `RequestEvent` types, the `form`/`command` RPC wrappers and the `async`/`Promise` layer. `getRequestEvent()` is replaced by an explicit event parameter.
- valibot: only the effect of the schema, a non-empty check with a fixed message. A form value that is not a string, which valibot rejects with its own type message, is not modelled.
- `$env/dynamic/private`: it is a map parameter. Loading it from the process is not modelled.
- `console.error` on a missing secret: it is I/O with no effect on the result.
- Cookie header serialisation, browser expiry after `maxAge` seconds, and the transport meaning of `Secure` and `SameSite`. These belong to the host and the browser.
- Cookies.CookieJar.Delete: the jar holds one cookie per name, so the `path` given to `cookies.delete` is not compared with the stored cookie's path. Every cookie this library writes has path `/`. The host writes an expired cookie; the model removes the entry.
- Handler.Downstream.Resolve: the downstream handler is a fixed function of the event state it observes. Anything the downstream itself does to the event is not modelled; in the host, `signIn` and `signOut` run inside `resolve(event)` and write the jar, which the model shows as separate calls on the same event after `Handle`.
- `maxAge` is a JavaScript `number`. It is an `int` here, so fractional, infinite and NaN values are not modelled.
- `src/app.d.ts` is not part of this model. It only widens the `App.Locals` type and has no logic. The application's own locals fields are an opaque `app` map.
- Concurrency between requests is not modelled. The library keeps no shared mutable state.

## Findings

| source | as written | input that shows it | evidently intended | confidence | as-written member | corrected member |
|---|---|---|---|---|---|---|
| src/lib/handler.ts:67 | `{ ...DEFAULT_CONFIG, ...config }` copies every own property of `config`, including one that holds `undefined`, over the default | `handleSession({ cookieName: undefined })`, which the optional property type admits, closes over an undefined cookie name instead of `"session"` (likewise an undefined `envKey` or `maxAge`) | each option documented with `@default` falls back to its default when not given, as a per-field `??` | medium, not executed | SessionConfigs.SpreadLosesDefault | SessionConfigs.Resolve |
