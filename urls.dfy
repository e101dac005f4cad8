/** Shop-URL normalisation shared by the Shopify client and tenant creation:
    `url.replace(/^https?:\/\//, '').replace(/\/$/, '')`, and the versioned
    Admin API base URL built from the normalised host. */
module Urls {

  const Http: string := "http://"
  const Https: string := "https://"
  const ApiPath: string := "/admin/api/2024-01"

  predicate StartsWith(s: string, p: string)
  {
    |p| <= |s| && s[..|p|] == p
  }

  predicate EndsWith(s: string, p: string)
  {
    |p| <= |s| && s[|s| - |p|..] == p
  }

  /** The first regex: at most one leading `http://` or `https://`, case-sensitively. */
  function StripProtocol(s: string): (r: string)
    ensures StartsWith(s, Https) ==> s == Https + r
    ensures StartsWith(s, Http) ==> s == Http + r
    ensures !StartsWith(s, Http) && !StartsWith(s, Https) ==> r == s
  {
    if StartsWith(s, Https) then
      assert s[..|Https|][4] == 's';
      s[|Https|..]
    else if StartsWith(s, Http) then s[|Http|..]
    else s
  }

  /** The second regex: at most one trailing `/` (JavaScript's `$` matches only at the very end). */
  function StripTrailingSlash(s: string): (r: string)
    ensures EndsWith(s, "/") ==> s == r + "/"
    ensures !EndsWith(s, "/") ==> r == s
  {
    if EndsWith(s, "/") then s[..|s| - 1] else s
  }

  function Normalize(url: string): (host: string)
    ensures |host| <= |url|
  {
    StripTrailingSlash(StripProtocol(url))
  }

  /** A host name as a user would type it: it contains no `/` at all. */
  predicate Host(h: string)
  {
    forall i :: 0 <= i < |h| ==> h[i] != '/'
  }

  /** Normalisation undoes exactly one optional protocol and one optional
      trailing slash around a host. */
  lemma NormalizeUndecorates(protocol: string, h: string, slash: string)
    requires protocol == "" || protocol == Http || protocol == Https
    requires slash == "" || slash == "/"
    requires Host(h)
    ensures Normalize(protocol + h + slash) == h
  {
    var s := protocol + h + slash;
    assert s[..|protocol|] == protocol;
    if protocol == Http {
      assert s[4] == ':';
    } else if protocol == "" {
      assert s == h + slash;
      if |s| >= |Http| {
        assert s[5] == h[5];
      }
      if |s| >= |Https| {
        assert s[6] == h[6];
      }
    }
    assert s[|protocol|..] == h + slash;
    assert StripProtocol(s) == h + slash;
    if slash == "" {
      assert h + slash == h;
      if |h| > 0 {
        assert h[|h| - 1..] == [h[|h| - 1]];
      }
    } else {
      assert (h + slash)[..|h + slash| - 1] == h;
    }
  }

  /** Only one protocol prefix is removed: a doubled prefix leaves the second in place. */
  lemma NormalizeStripsOneProtocol(h: string)
    requires Host(h) && h != ""
    ensures Normalize(Https + Https + h) == Https + h
  {
    var s := Https + Https + h;
    assert s[..|Https|] == Https;
    assert StripProtocol(s) == Https + h;
    var t := Https + h;
    assert t[|t| - 1..] == [h[|h| - 1]];
  }

  /** The Admin API root the client sends its requests to. */
  function BaseUrl(host: string): (url: string)
    ensures |url| == |Https| + |host| + |ApiPath|
    ensures StartsWith(url, Https) && EndsWith(url, ApiPath)
    ensures url[|Https|..|url| - |ApiPath|] == host
  {
    var url := Https + host + ApiPath;
    assert url[..|Https|] == Https;
    assert url[|url| - |ApiPath|..] == ApiPath;
    assert url[|Https|..|url| - |ApiPath|] == host;
    url
  }
}
