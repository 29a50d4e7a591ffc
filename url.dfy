/**
 How `SyncClient._request` turns the path an endpoint gives it into the URL it
 requests. The code drops a first character unless the path starts with `/`,
 then drops four more unless what is left starts with `api/`, and then tests
 the rest against
 `^http[s]?://[api.openrobot.xyz|lyrics.ayomerdeka.com]/`. In that pattern the
 bracketed host is a character class, so it accepts a scheme, exactly one
 character of the class, and `/`. A string the pattern accepts is refused with
 a TypeError, and so is every string when `no_url_regex` is set. Any other
 string is appended to the API base.
 */
module Url {
  import opened Wire

  const ApiBase: string := "https://api.openrobot.xyz/api"

  /** The characters of the class `[api.openrobot.xyz|lyrics.ayomerdeka.com]`. */
  const HostClass: set<char> :=
    {'a', 'p', 'i', '.', 'o', 'e', 'n', 'r', 'b', 't', 'x', 'y', 'z', '|', 'l', 'c', 's', 'm', 'd', 'k'}

  /** Python's `s.startswith(prefix)`. */
  predicate StartsWith(s: string, prefix: string)
  {
    |prefix| <= |s| && s[..|prefix|] == prefix
  }

  /** Python's `s[k:]` for k >= 0, which is empty once k passes the end. */
  function Slice(s: string, k: nat): (r: string)
    ensures |r| == if k <= |s| then |s| - k else 0
    ensures r == s[|s| - |r|..]
  {
    if k <= |s| then s[k..] else ""
  }

  /** `re.match` of the host pattern: `http`, an optional `s`, `://`, one character of the class, `/`. */
  predicate MatchesHostPattern(u: string)
  {
    (StartsWith(u, "http://") && |u| >= 9 && u[7] in HostClass && u[8] == '/') ||
    (StartsWith(u, "https://") && |u| >= 10 && u[8] in HostClass && u[9] == '/')
  }

  /** `s` is a (possibly empty) suffix of `t`. */
  predicate IsSuffix(s: string, t: string)
  {
    |s| <= |t| && s == t[|t| - |s|..]
  }

  /**
   The two slicing steps: drop 1 unless the string starts with `/`, then drop
   4 unless it starts with `api/`. At most five characters are lost, all from
   the front.
   */
  function Stripped(url: string): (r: string)
    ensures IsSuffix(r, url) && |url| <= |r| + 5
  {
    var u := if !StartsWith(url, "/") then Slice(url, 1) else url;
    if !StartsWith(u, "api/") then Slice(u, 4) else u
  }

  /**
   The URL the client requests for `url`, or the TypeError it raises. The
   result is always the API base followed by a suffix of `url`, so it is
   strictly longer than `url` and never `url` itself.
   */
  function Normalise(url: string, noUrlRegex: bool): (r: Result<string>)
    ensures r.Success? <==> !noUrlRegex && !MatchesHostPattern(Stripped(url))
    ensures r.Failure? ==> r.error == InvalidUrl
    ensures r.Success? ==> StartsWith(r.value, ApiBase) && |url| < |r.value|
    ensures r.Success? ==> IsSuffix(r.value[|ApiBase|..], url)
  {
    var u := Stripped(url);
    if !MatchesHostPattern(u) && !noUrlRegex then Success(ApiBase + u) else Failure(InvalidUrl)
  }

  /**
   The paths the endpoint wrappers use, `/api/...`, become the service host
   followed by the whole path, unless what follows `/api` itself looks like
   an absolute URL on a one-character host.
   */
  lemma ApiPathNormalises(path: string)
    requires StartsWith(path, "/api")
    requires !MatchesHostPattern(path[4..])
    ensures Normalise(path, false) == Success("https://api.openrobot.xyz" + path)
  {
    assert Stripped(path) == path[4..];
    calc {
      ApiBase + path[4..];
      ("https://api.openrobot.xyz" + "/api") + path[4..];
      "https://api.openrobot.xyz" + ("/api" + path[4..]);
      { assert path == path[..4] + path[4..]; }
      "https://api.openrobot.xyz" + path;
    }
  }

  /**
   An absolute http or https URL is not passed through: its first five
   characters are cut off and the rest is appended to the API base.
   */
  lemma AbsoluteUrlRebased(url: string)
    requires StartsWith(url, "http://") || StartsWith(url, "https://")
    ensures Normalise(url, false) == Success(ApiBase + url[5..])
  {
    assert url[1] == 't' && url[5] != 'h';
    assert !StartsWith(url, "/") by { assert url[..1][0] == 'h'; }
    var u := Slice(url, 1);
    assert u == url[1..] && u[0] == 't';
    assert !StartsWith(u, "api/") by { assert u[..4][0] == 't'; }
    assert u[4..] == url[5..];
    assert Stripped(url) == url[5..];
    assert url[5..][0] != 'h';
  }

  /** The pattern accepts no URL on either of the two real hosts. */
  lemma RealHostsNeverMatch(scheme: string, host: string, path: string)
    requires scheme == "http://" || scheme == "https://"
    requires host == "api.openrobot.xyz" || host == "lyrics.ayomerdeka.com"
    ensures !MatchesHostPattern(scheme + host + path)
  {
    var u := scheme + host + path;
    assert u[..|scheme|] == scheme;
    assert u[4] == scheme[4];
    assert u[|scheme| + 1] == host[1] != '/';
  }
}
