/** Conversion of a browser (Chrome DevTools protocol) cookie into a
    tough-cookie cookie, as packages/core/src/utils/serializeForTough.ts does it. */
module Cookie {
  import opened Common

  /** The session-cookie marker of the browser protocol. */
  const PuppeteerInfinityExpires: int := -1

  datatype ToughSameSite = Lax | Strict | NoneSite

  /** A cookie as the browser reports it; `expires` is in whole seconds. */
  datatype PuppetCookie = PuppetCookie(
    name: string,
    value: string,
    domain: string,
    path: string,
    expires: int,
    secure: bool,
    httpOnly: bool,
    sameSite: Option<string>)

  /** Expiry on the tough-cookie side: the string 'Infinity' or a date in milliseconds. */
  datatype Expiry = Infinity | AtMillis(ms: int)

  datatype ToughCookie = ToughCookie(
    key: string,
    value: string,
    expires: Expiry,
    domain: string,
    path: string,
    secure: bool,
    httpOnly: bool,
    sameSite: ToughSameSite,
    hostOnly: bool)

  /** Maps the browser's SameSite attribute onto tough-cookie's; every value other
      than 'Lax' and 'Strict', a missing one included, maps to 'none'. */
  function P2tSameSite(sameSite: Option<string>): (r: ToughSameSite)
    ensures r == Lax <==> sameSite == Some("Lax")
    ensures r == Strict <==> sameSite == Some("Strict")
    ensures r == NoneSite <==> sameSite != Some("Lax") && sameSite != Some("Strict")
  {
    match sameSite
    case Some("Lax") => Lax
    case Some("Strict") => Strict
    case _ => NoneSite
  }

  predicate StartsWith(s: string, prefix: string)
  {
    |prefix| <= |s| && s[..|prefix|] == prefix
  }

  /** Builds the tough-cookie record. `canonicalDomain` stands for tough-cookie's
      domain canonicaliser, which is a library call. */
  function SerializeForTough(c: PuppetCookie, canonicalDomain: string -> string): (t: ToughCookie)
    ensures t.key == c.name && t.value == c.value && t.path == c.path
    ensures t.secure == c.secure && t.httpOnly == c.httpOnly
    ensures t.domain == canonicalDomain(c.domain)
    ensures t.sameSite == P2tSameSite(c.sameSite)
    ensures t.expires == Infinity <==> c.expires == 0 || c.expires == PuppeteerInfinityExpires
    ensures t.expires.AtMillis? ==> t.expires.ms == c.expires * 1000
    ensures t.hostOnly <==> !(|c.domain| > 0 && c.domain[0] == '.')
  {
    ToughCookie(
      c.name,
      c.value,
      if c.expires == 0 || c.expires == PuppeteerInfinityExpires then Infinity else AtMillis(c.expires * 1000),
      canonicalDomain(c.domain),
      c.path,
      c.secure,
      c.httpOnly,
      P2tSameSite(c.sameSite),
      !StartsWith(c.domain, "."))
  }
}
