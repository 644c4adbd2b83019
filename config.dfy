/**
 * Session configuration: the partial options a library user passes to the
 * handle factory, the complete configuration derived from them, and the
 * defaults (src/lib/handler.ts).
 */
module SessionConfigs {

  /**
   * One property of a JavaScript object literal. TypeScript's optional
   * property `f?: T` admits three shapes: the key is not there at all,
   * the key is there holding `undefined`, or the key holds a value.
   */
  datatype Prop<+T> = Missing | Undefined | Defined(value: T)

  /** The user-supplied, partial configuration: `{ envKey?, cookieName?, maxAge? }`. */
  datatype SessionConfig = SessionConfig(envKey: Prop<string>, cookieName: Prop<string>, maxAge: Prop<int>)

  /** The configuration `{}` that the factory uses when it is called with no argument. */
  const EMPTY_CONFIG := SessionConfig(Missing, Missing, Missing)

  /** `Required<SessionConfig>`: every field present. `maxAge` is in seconds. */
  datatype ResolvedConfig = ResolvedConfig(envKey: string, cookieName: string, maxAge: int)

  /** Seven days, written as the source writes it. */
  const DEFAULT_MAX_AGE: int := 60 * 60 * 24 * 7

  const DEFAULT_CONFIG := ResolvedConfig("SESSION_PASSWORD", "session", DEFAULT_MAX_AGE)

  /** The value a field takes when standing for a JavaScript `p ?? d`. */
  function OrDefault<T>(p: Prop<T>, d: T): (r: T)
  {
    if p.Defined? then p.value else d
  }

  /**
   * The merge every field of which falls back on its default unless the
   * user gave a value: a missing key and a key holding `undefined` both
   * select the default. This is the documented meaning of the options
   * (each carries `@default`), and the rest of the model uses it.
   */
  function Resolve(c: SessionConfig): (r: ResolvedConfig)
    ensures c.envKey.Defined? ==> r.envKey == c.envKey.value
    ensures !c.envKey.Defined? ==> r.envKey == "SESSION_PASSWORD"
    ensures c.cookieName.Defined? ==> r.cookieName == c.cookieName.value
    ensures !c.cookieName.Defined? ==> r.cookieName == "session"
    ensures c.maxAge.Defined? ==> r.maxAge == c.maxAge.value
    ensures !c.maxAge.Defined? ==> r.maxAge == 604800
  {
    ResolvedConfig(
      OrDefault(c.envKey, DEFAULT_CONFIG.envKey),
      OrDefault(c.cookieName, DEFAULT_CONFIG.cookieName),
      OrDefault(c.maxAge, DEFAULT_CONFIG.maxAge))
  }

  /** Resolving the empty configuration gives exactly the documented defaults. */
  lemma ResolveEmpty()
    ensures Resolve(EMPTY_CONFIG) == ResolvedConfig("SESSION_PASSWORD", "session", 604800)
    ensures Resolve(EMPTY_CONFIG) == DEFAULT_CONFIG
  {
  }

  /**
   * Each resolved field depends on the same field of the input only:
   * two partial configurations that agree on one field resolve to the
   * same value of that field, whatever their other fields hold.
   */
  lemma ResolveFieldwise(c: SessionConfig, d: SessionConfig)
    ensures c.envKey == d.envKey ==> Resolve(c).envKey == Resolve(d).envKey
    ensures c.cookieName == d.cookieName ==> Resolve(c).cookieName == Resolve(d).cookieName
    ensures c.maxAge == d.maxAge ==> Resolve(c).maxAge == Resolve(d).maxAge
  {
  }

  /** Resolving is a projection: resolving a fully given configuration returns it. */
  lemma ResolveComplete(r: ResolvedConfig)
    ensures Resolve(SessionConfig(Defined(r.envKey), Defined(r.cookieName), Defined(r.maxAge))) == r
  {
  }

  // ---------------------------------------------------------------------
  // The merge as src/lib/handler.ts:67 writes it: `{ ...DEFAULT_CONFIG, ...config }`.
  // ---------------------------------------------------------------------

  /** The object an object spread produces: each field as a JavaScript property. */
  datatype SpreadConfig = SpreadConfig(envKey: Prop<string>, cookieName: Prop<string>, maxAge: Prop<int>)

  /**
   * `{ ...{f: d}, ...{f: p} }` for one field: the later spread copies every
   * own property, so a key holding `undefined` overwrites the default.
   */
  function SpreadField<T>(d: T, p: Prop<T>): (r: Prop<T>)
    ensures p.Missing? ==> r == Defined(d)
    ensures !p.Missing? ==> r == p
  {
    match p
    case Missing => Defined(d)
    case Undefined => Undefined
    case Defined(v) => Defined(v)
  }

  function SpreadMerge(c: SessionConfig): (r: SpreadConfig)
    ensures c.envKey.Missing? ==> r.envKey == Defined("SESSION_PASSWORD")
    ensures !c.envKey.Missing? ==> r.envKey == c.envKey
    ensures c.cookieName.Missing? ==> r.cookieName == Defined("session")
    ensures !c.cookieName.Missing? ==> r.cookieName == c.cookieName
    ensures c.maxAge.Missing? ==> r.maxAge == Defined(604800)
    ensures !c.maxAge.Missing? ==> r.maxAge == c.maxAge
  {
    SpreadConfig(
      SpreadField(DEFAULT_CONFIG.envKey, c.envKey),
      SpreadField(DEFAULT_CONFIG.cookieName, c.cookieName),
      SpreadField(DEFAULT_CONFIG.maxAge, c.maxAge))
  }

  /** No field of a configuration is an own property holding `undefined`. */
  predicate NoUndefinedFields(c: SessionConfig)
  {
    !c.envKey.Undefined? && !c.cookieName.Undefined? && !c.maxAge.Undefined?
  }

  /**
   * Where no field holds `undefined`, the spread as written and the
   * corrected merge agree field by field; the spread's result is then
   * complete.
   */
  lemma SpreadAgreesWithResolve(c: SessionConfig)
    requires NoUndefinedFields(c)
    ensures SpreadMerge(c) == SpreadConfig(Defined(Resolve(c).envKey), Defined(Resolve(c).cookieName), Defined(Resolve(c).maxAge))
  {
  }

  /**
   * The discrepancy: `handleSession({ cookieName: undefined })` satisfies
   * the declared type, yet the spread leaves the cookie name undefined
   * instead of `"session"` (and likewise for the other two fields).
   */
  lemma SpreadLosesDefault()
    ensures SpreadMerge(SessionConfig(Missing, Undefined, Missing)).cookieName == Undefined
    ensures Resolve(SessionConfig(Missing, Undefined, Missing)).cookieName == "session"
    ensures SpreadMerge(SessionConfig(Undefined, Missing, Undefined)).envKey == Undefined
    ensures SpreadMerge(SessionConfig(Undefined, Missing, Undefined)).maxAge == Undefined
  {
  }
}
