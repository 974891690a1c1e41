/** `InMemoryCookieJar`, the session store the HTTP client consults before
    every request and feeds after every response: one cookie list per host,
    kept for the life of the process. */
module NetworkModule {

  /** The parts of OkHttp's `HttpUrl` the jar looks at (only `host`). */
  datatype HttpUrl = HttpUrl(scheme: string, host: string, port: int, path: string)

  /** An OkHttp cookie; the jar stores and returns cookies without looking
      inside them (no expiry, domain or path matching). */
  datatype Cookie = Cookie(name: string, value: string, domain: string, path: string)

  /** The entry a request to `host` gets from a store: the saved list, or the
      empty list for a host never saved. */
  function CookiesFor(store: map<string, seq<Cookie>>, host: string): (cs: seq<Cookie>)
    ensures host !in store ==> cs == []
    ensures host in store ==> cs == store[host]
  {
    if host in store then store[host] else []
  }

  class InMemoryCookieJar {
    var cookieStore: map<string, seq<Cookie>>

    constructor ()
      ensures cookieStore == map[]
    {
      cookieStore := map[];
    }

    /** `saveFromResponse`: the host's list is replaced by the response's
        cookies (not merged); every other host keeps its list. */
    method SaveFromResponse(url: HttpUrl, cookies: seq<Cookie>)
      modifies this
      ensures cookieStore == old(cookieStore)[url.host := cookies]
      ensures CookiesFor(cookieStore, url.host) == cookies
      ensures forall h :: h != url.host ==> CookiesFor(cookieStore, h) == CookiesFor(old(cookieStore), h)
    {
      cookieStore := cookieStore[url.host := cookies];
    }

    /** `loadForRequest`: the list saved for the URL's host, or none. */
    method LoadForRequest(url: HttpUrl) returns (cookies: seq<Cookie>)
      ensures cookies == CookiesFor(cookieStore, url.host)
      ensures url.host !in cookieStore ==> cookies == []
    {
      cookies := if url.host in cookieStore then cookieStore[url.host] else [];
    }
  }

  /** After a save, a request to any URL on the same host (whatever its scheme,
      port or path) carries exactly the saved cookies. */
  lemma SaveThenLoad(store: map<string, seq<Cookie>>, saved: HttpUrl, cookies: seq<Cookie>, request: HttpUrl)
    requires request.host == saved.host
    ensures CookiesFor(store[saved.host := cookies], request.host) == cookies
  {
  }

  /** Two saves for the same host: the second one wins outright, nothing of the
      first survives. */
  lemma SaveReplaces(store: map<string, seq<Cookie>>, host: string, first: seq<Cookie>, second: seq<Cookie>)
    ensures store[host := first][host := second] == store[host := second]
    ensures CookiesFor(store[host := first][host := second], host) == second
  {
  }

  /** A fresh jar gives every host the empty list until that host is saved. */
  lemma FreshJarEmpty(host: string)
    ensures CookiesFor(map[], host) == []
  {
  }
}
