/** Building the request URL from the connector host and the endpoint path
    (`prepareUrl` in src/index.ts). */
module Url {

  predicate StartsWithSlash(s: string) {
    |s| > 0 && s[0] == '/'
  }

  predicate EndsWithSlash(s: string) {
    |s| > 0 && s[|s| - 1] == '/'
  }

  /** `s.replace(/^\//, '')`: the pattern only matches a slash at index 0, and
      a replace without the global flag removes at most that one match. The
      result is a suffix of `s` that is one character shorter exactly when `s`
      starts with a slash. */
  function StripLeadingSlash(s: string): (r: string)
    ensures |r| == |s| - (if StartsWithSlash(s) then 1 else 0)
    ensures r == s[|s| - |r|..]
  {
    if StartsWithSlash(s) then s[1..] else s
  }

  /** The URL requested: the host, unchanged, followed by the endpoint path
      with at most one leading slash removed. Nothing is done to slashes at
      the end of the host, and no separator is inserted. */
  function PrepareUrl(host: string, endpointUrl: string): (url: string)
    ensures |host| <= |url| && url[..|host|] == host
    ensures StartsWithSlash(endpointUrl) <==> |url| == |host| + |endpointUrl| - 1
    ensures !StartsWithSlash(endpointUrl) <==> |url| == |host| + |endpointUrl|
    ensures url[|host|..] == endpointUrl[|endpointUrl| - (|url| - |host|)..]
  {
    host + StripLeadingSlash(endpointUrl)
  }

  /** Only the first of several leading slashes goes: `//x` becomes `/x`. */
  lemma PrepareUrlKeepsSecondSlash(host: string, rest: string)
    ensures PrepareUrl(host, "//" + rest) == host + "/" + rest
  {
    assert ("//" + rest)[1..] == "/" + rest;
  }

  /** Slashes at the end of either argument are kept, except that an endpoint
      consisting of a single slash disappears altogether. */
  lemma PrepareUrlKeepsTrailingSlashes(host: string, endpointUrl: string)
    ensures EndsWithSlash(host) ==> EndsWithSlash(PrepareUrl(host, endpointUrl)[..|host|])
    ensures EndsWithSlash(endpointUrl) && endpointUrl != "/" ==> EndsWithSlash(PrepareUrl(host, endpointUrl))
    ensures PrepareUrl(host, "/") == host
  {
  }

  /** No separator is guaranteed: a path with or without one leading slash
      yields the same URL, glued directly onto the host. With a host that does
      not end in a slash, the host and the path run together. */
  lemma PrepareUrlInsertsNoSeparator(host: string, path: string)
    requires !StartsWithSlash(path)
    ensures PrepareUrl(host, "/" + path) == host + path
    ensures PrepareUrl(host, path) == host + path
  {
    assert ("/" + path)[1..] == path;
  }

  /** A concrete instance of the above: `https://a.com` with `/x` gives
      `https://a.comx`, although the documentation comment on `prepareUrl`
      speaks of a "fully formed URL with extra slashes stripped". */
  lemma PrepareUrlJoinsWithoutSlash()
    ensures PrepareUrl("https://a.com", "/x") == "https://a.comx"
    ensures PrepareUrl("https://a.com/", "/x/") == "https://a.com/x/"
  {
  }
}
