/**
 * The request's cookie jar as the library sees it through `event.cookies`:
 * the cookies the browser holds for the site, keyed by name, with the
 * attributes each was last written with.
 */
module Cookies {
  import opened Options

  datatype SameSite = Strict | Lax | NoRestriction

  /** The attributes passed to `cookies.set`. `maxAge` is in seconds. */
  datatype CookieOptions = CookieOptions(path: string, httpOnly: bool, secure: bool, sameSite: SameSite, maxAge: int)

  datatype Cookie = Cookie(value: string, options: CookieOptions)

  /** `cookies.get(name)` on a jar given as a value. */
  function Lookup(jar: map<string, Cookie>, name: string): (v: Option<string>)
    ensures v.Some? <==> name in jar
    ensures v.Some? ==> v.value == jar[name].value
  {
    if name in jar then Some(jar[name].value) else None
  }

  class CookieJar {
    var entries: map<string, Cookie>

    constructor (initial: map<string, Cookie>)
      ensures entries == initial
    {
      entries := initial;
    }

    /** `cookies.get(name)`: the value of the named cookie, or `undefined`. */
    function Get(name: string): (v: Option<string>)
      reads this
      ensures v.Some? <==> name in entries
      ensures v.Some? ==> v.value == entries[name].value
    {
      Lookup(entries, name)
    }

    /** `cookies.set(name, value, options)`: writes (or overwrites) one entry. */
    method Set(name: string, value: string, options: CookieOptions)
      modifies this
      ensures entries == old(entries)[name := Cookie(value, options)]
    {
      entries := entries[name := Cookie(value, options)];
    }

    /** `cookies.delete(name, { path })`: the entry is gone afterwards, present or not before. */
    method Delete(name: string, path: string)
      modifies this
      ensures entries == old(entries) - {name}
    {
      entries := entries - {name};
    }
  }
}
