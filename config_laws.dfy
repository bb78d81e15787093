/**
 * What `setCfg` (lib/Simple.php:359-375) makes of `siteUrl`: the split of an `http(s)://host/path`
 * URL into `hostInfo` and `basePath`, the exception for a URL without a path, and the options
 * that leave the current configuration alone.
 */
module ConfigLaws {
  import opened Wrappers
  import opened Strings
  import opened RouteModel
  import opened ConfigSpec

  // ---------------------------------------------------------------- the siteUrl pattern

  /** A URL that starts with a whole scheme has that scheme's length. */
  lemma SchemeOf(scheme: string, u: string)
    requires SchemeLen(scheme) == |scheme| > 0 && |scheme| < |u| && u[..|scheme|] == scheme
    ensures SchemeLen(u) == |scheme|
  {
    assert forall i :: 0 <= i < |scheme| ==> u[i] == scheme[i];
  }

  /** `LowerChar` changes only letters: no other character becomes a `:` or a `/`. */
  lemma LowerPunct(c: char)
    ensures LowerChar(c) == ':' <==> c == ':'
    ensures LowerChar(c) == '/' <==> c == '/'
  {
  }

  /** Eight characters spell `https://` exactly when each of them does. */
  lemma HttpsChars(w: string)
    requires |w| == 8
    ensures w == "https://" <==>
      w[0] == 'h' && w[1] == 't' && w[2] == 't' && w[3] == 'p' && w[4] == 's' && w[5] == ':' && w[6] == '/' && w[7] == '/'
  {
  }

  /** Seven characters spell `http://` exactly when each of them does. */
  lemma HttpChars(w: string)
    requires |w| == 7
    ensures w == "http://" <==>
      w[0] == 'h' && w[1] == 't' && w[2] == 't' && w[3] == 'p' && w[4] == ':' && w[5] == '/' && w[6] == '/'
  {
  }

  /**
   * Line 364 with its `/i` flag: the scheme is eight characters long exactly when the URL starts
   * with `https://`, its letters in any case.
   */
  lemma SchemeLenHttps(u: string)
    ensures SchemeLen(u) == 8 <==> |u| >= 8 && Lower(u[..8]) == "https://"
  {
    if |u| >= 8 {
      var w := Lower(u[..8]);
      assert forall i :: 0 <= i < 8 ==> w[i] == LowerChar(u[i]);
      LowerPunct(u[5]);
      LowerPunct(u[6]);
      LowerPunct(u[7]);
      HttpsChars(w);
    }
  }

  /** ... and seven characters long exactly when it starts with `http://`, its letters in any case. */
  lemma SchemeLenHttp(u: string)
    ensures SchemeLen(u) == 7 <==> |u| >= 7 && Lower(u[..7]) == "http://"
  {
    if |u| >= 7 {
      var w := Lower(u[..7]);
      assert forall i :: 0 <= i < 7 ==> w[i] == LowerChar(u[i]);
      LowerPunct(u[4]);
      LowerPunct(u[5]);
      LowerPunct(u[6]);
      HttpChars(w);
    }
  }

  /** A URL with no `/` past its seventh character has no path for the pattern to take. */
  lemma SiteUrlWithoutPath(u: string)
    requires forall i :: 7 <= i < |u| ==> u[i] != '/'
    ensures SiteUrlParts(u).None?
  {
    var k := SchemeLen(u);
    var l := Line(u);
    if k > 0 && k < |l| {
      var tail := l[k + 1..];
      forall i | 0 <= i < |tail| ensures tail[i] != '/' {
        assert tail[i] == u[k + 1 + i];
      }
    }
  }

  /** The only split of `u` into a part longer than `k` with no `/` past `k`, and a part starting with `/`. */
  lemma GroupsAt(u: string, k: nat, e: nat, r0: string, r1: string)
    requires k < e < |u| && u[e] == '/' && forall i :: k <= i < e ==> u[i] != '/'
    requires r0 + r1 == u && k < |r0| && '/' !in r0[k + 1..] && r1 != [] && r1[0] == '/'
    ensures r0 == u[..e] && r1 == u[e..]
  {
    var n := |r0|;
    assert u[n] == r1[0];
    var tail := r0[k + 1..];
    assert forall i :: k + 1 <= i < n ==> u[i] == tail[i - k - 1];
    assert n == e;
  }

  /** `scheme host path` is one line, `/` first appears past the scheme where the path starts. */
  lemma SiteUrlShape(scheme: string, host: string, path: string)
    requires '\n' !in scheme && host != [] && '/' !in host && '\n' !in host
    requires path != [] && path[0] == '/' && '\n' !in path
    ensures var u := scheme + host + path; var k := |scheme|; var e := k + |host|;
      '\n' !in u && e < |u| && u[e] == '/' && (forall i :: k <= i < e ==> u[i] != '/')
  {
    var u := scheme + host + path;
    var k := |scheme|;
    var e := k + |host|;
    assert forall i :: 0 <= i < |u| ==> u[i] == if i < k then scheme[i] else if i < e then host[i - k] else path[i - e];
  }

  /** A one-line URL with a scheme of length `k` and its first `/` past the scheme at `e` splits at `e`. */
  lemma SiteUrlFound(u: string, k: nat, e: nat)
    requires SchemeLen(u) == k && k > 0 && Line(u) == u
    requires k < e < |u| && u[e] == '/' && forall i :: k <= i < e ==> u[i] != '/'
    ensures SiteUrlParts(u) == Some((u[..e], u[e..]))
  {
    assert SiteUrlParts(u).Some? by {
      assert u[k + 1..][e - k - 1] == '/';
    }
    var r := SiteUrlParts(u).value;
    GroupsAt(u, k, e, r.0, r.1);
  }

  /**
   * `scheme host path` on one line, the host free of `/` and the path starting with `/`: group 1
   * of the pattern is `scheme host` and group 2 is the path.
   */
  lemma SiteUrlSplit(scheme: string, host: string, path: string)
    requires SchemeLen(scheme) == |scheme| > 0
    requires host != [] && '/' !in host && '\n' !in host
    requires path != [] && path[0] == '/' && '\n' !in path
    ensures SiteUrlParts(scheme + host + path) == Some((scheme + host, path))
  {
    var u := scheme + host + path;
    var k := |scheme|;
    var e := k + |host|;
    SchemeOfUrl(scheme, host, path);
    SiteUrlShape(scheme, host, path);
    LineUnique(u, u);
    SiteUrlFound(u, k, e);
    CutAtHost(scheme, host, path);
  }

  /** The scheme of `scheme host path` is found, and has no newline. */
  lemma SchemeOfUrl(scheme: string, host: string, path: string)
    requires SchemeLen(scheme) == |scheme| > 0 && host != []
    ensures SchemeLen(scheme + host + path) == |scheme| && '\n' !in scheme
  {
    assert scheme[..|scheme|] == scheme;
    var u := scheme + host + path;
    assert u[..|scheme|] == scheme;
    SchemeOf(scheme, u);
  }

  /** The two sides of the `/` that ends the host. */
  lemma CutAtHost(scheme: string, host: string, path: string)
    ensures var u := scheme + host + path; var e := |scheme| + |host|;
      u[..e] == scheme + host && u[e..] == path
  {
  }

  // ---------------------------------------------------------------- setCfg

  /** A given `siteUrl` of this shape, with no `hostInfo`, sets `hostInfo` to `scheme host` and `basePath` to the path. */
  lemma SiteUrlDerives(base: Config, s: Settings, scheme: string, host: string, path: string)
    requires SchemeLen(scheme) == |scheme| > 0
    requires host != [] && '/' !in host && '\n' !in host
    requires path != [] && path[0] == '/' && '\n' !in path
    requires s.siteUrl == Some(scheme + host + path) && Empty(s.hostInfo)
    ensures DeriveCfg(base, s) == Success(Override(base, s).(hostInfo := scheme + host, basePath := path))
  {
    SiteUrlSplit(scheme, host, path);
    var u := scheme + host + path;
    assert u[0] == scheme[0];
    assert Truthy(u) by {
      assert |u| > 1;
    }
  }

  /** The pieces of the example site URL. */
  lemma ExampleSiteUrl(u: string, scheme: string, host: string, path: string)
    requires u == "http://www.site.com/ctx/" && scheme == "http://" && host == "www.site.com" && path == "/ctx/"
    ensures u == scheme + host + path && SchemeLen(scheme) == |scheme| > 0
    ensures host != [] && '/' !in host && '\n' !in host && path != [] && path[0] == '/' && '\n' !in path
  {
  }

  /** `siteUrl` `http://www.site.com/ctx/` alone gives `hostInfo` `http://www.site.com` and `basePath` `/ctx/`. */
  lemma SiteUrlExample(base: Config, s: Settings)
    requires s.siteUrl == Some("http://www.site.com/ctx/") && s.hostInfo.None?
    ensures DeriveCfg(base, s).Success?
    ensures DeriveCfg(base, s).value.hostInfo == "http://" + "www.site.com"
    ensures DeriveCfg(base, s).value.basePath == "/ctx/"
  {
    var scheme, host, path := "http://", "www.site.com", "/ctx/";
    ExampleSiteUrl(s.siteUrl.value, scheme, host, path);
    SiteUrlDerives(base, s, scheme, host, path);
  }

  /** `http://host` has no path after the host: the pattern fails. */
  lemma HostOnly(u: string)
    requires u == "http://host"
    ensures forall i :: 7 <= i < |u| ==> u[i] != '/'
    ensures Truthy(u)
  {
  }

  /** `siteUrl` `http://host`, with none of `hostInfo` and `basePath`, makes `setCfg` throw. */
  lemma SiteUrlRejected(base: Config, s: Settings)
    requires s.siteUrl == Some("http://host") && s.hostInfo.None?
    ensures DeriveCfg(base, s) == Failure(SiteUrlNotHttp)
  {
    HostOnly(s.siteUrl.value);
    SiteUrlWithoutPath(s.siteUrl.value);
  }

  /** With no option given the configuration stays as it is. */
  lemma NoSettingsKeeps(base: Config)
    ensures DeriveCfg(base, NoSettings) == Success(base)
  {
  }

  /** A `siteUrl` of `"0"` is empty to PHP: it is stored but nothing is derived from it. */
  lemma ZeroSiteUrl(base: Config, s: Settings)
    requires s == NoSettings.(siteUrl := Some("0"))
    ensures DeriveCfg(base, s) == Success(base.(siteUrl := "0"))
  {
    assert !Truthy("0");
  }
}
