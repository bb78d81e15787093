/**
 * What `Simple::buildUrL` (lib/Simple.php:283-353) promises: the first alias rule that matches
 * wins, the domain of a controller wins over that of its module, the query joins with `&` after
 * the entry script, `createUrl` splits off the fragment and the query, and an encoded URL parses
 * back to the route it was built from.
 */
module BuildLaws {
  import opened Wrappers
  import opened Strings
  import opened PhpArray
  import Base64
  import opened RouteModel
  import opened ParseSpec
  import opened BuildSpec
  import AttrLaws
  import ParseLaws

  // ---------------------------------------------------------------- aliases

  /** Lines 299-305: the first rule that matches, and only that one, is replaced by its tag. */
  lemma {:induction false} ContractFirstRule(alias: Pairs, url: string, i: nat)
    requires i < |alias| && RuleMatches(alias[i].1, url)
    requires forall j :: 0 <= j < i ==> !RuleMatches(alias[j].1, url)
    ensures ContractAlias(alias, url) == alias[i].0 + url[|Trim(alias[i].1, "/")|..]
    decreases i
  {
    if i > 0 {
      assert !RuleMatches(alias[0].1, url);
      forall j | 0 <= j < i - 1 ensures !RuleMatches(alias[1..][j].1, url) {
        assert alias[1..][j] == alias[j + 1];
      }
      ContractFirstRule(alias[1..], url, i - 1);
    }
  }

  /** When no rule matches, the URL is left as it is. */
  lemma {:induction false} ContractNoRule(alias: Pairs, url: string)
    requires forall j :: 0 <= j < |alias| ==> !RuleMatches(alias[j].1, url)
    ensures ContractAlias(alias, url) == url
    decreases |alias|
  {
    if alias != [] {
      assert !RuleMatches(alias[0].1, url);
      forall j | 0 <= j < |alias| - 1 ensures !RuleMatches(alias[1..][j].1, url) {
        assert alias[1..][j] == alias[j + 1];
      }
      ContractNoRule(alias[1..], url);
    }
  }

  /** Lower-casing keeps a prefix a prefix. */
  lemma LowerPrefix(u: string, p: string)
    requires StartsWith(u, p)
    ensures StartsWith(Lower(u), Lower(p))
  {
    assert Lower(u)[..|p|] == Lower(p) by {
      forall i | 0 <= i < |p| ensures Lower(u)[i] == Lower(p)[i] {
        assert u[i] == p[i];
      }
    }
  }

  /**
   * A rule matches the URL it names, and any URL that goes on from it after a `/`: the tag then
   * stands for it and the rest of the URL is kept.
   */
  lemma RuleMatchesItself(rule: string, rest: string)
    requires Trim(rule, "/") == rule
    ensures (rest == [] || rest[0] == '/') ==> RuleMatches(rule, rule + rest)
  {
    if rest == [] || rest[0] == '/' {
      var u := rule + rest + "/";
      assert u[..|rule| + 1] == rule + "/" by {
        assert u[|rule|] == '/';
        assert u[..|rule|] == rule;
      }
      LowerPrefix(u, rule + "/");
    }
  }

  // ---------------------------------------------------------------- module and controller of a URL

  /** The first `.` after position 0 is at `k` when `s[k]` is a `.` and none comes before it. */
  lemma FirstDotAt(s: string, k: nat)
    requires 1 <= k < |s| && s[k] == '.' && '.' !in s[..k]
    ensures IndexOf(s[1..], '.') == Some(k - 1)
  {
    assert s[1..][k - 1] == '.';
    assert s[1..][..k - 1] == s[1..k];
    forall j | 0 <= j < k - 1 ensures s[1..][j] != '.' {
      assert s[1..][j] == s[..k][j + 1];
    }
  }

  /** The last `.` before the last character is at `b` when none comes after it. */
  lemma LastDotAt(s: string, b: nat)
    requires b + 1 < |s| && s[b] == '.' && '.' !in s[b + 1..]
    ensures LastIndexOf(s[..|s| - 1], '.') == Some(b)
  {
    var l := s[..|s| - 1];
    assert l[b] == '.';
    assert l[b + 1..] == s[b + 1..|s| - 1];
    forall j | b < j < |l| ensures l[j] != '.' {
      assert l[j] == s[b + 1..][j - b - 1];
    }
  }

  /** A single line is its own list of lines. */
  lemma OneLine(s: string)
    requires '\n' !in s
    ensures Split(s, '\n') == [s]
  {
    SplitNone(s, '\n');
  }

  /** Where the dots of `m.c.t` are, and what lies between them. */
  lemma RouteIdDots(m: string, c: string, t: string)
    requires '.' !in m && '.' !in t
    ensures var line := m + "." + c + "." + t; var b := |m| + 1 + |c|;
      line[..|m|] == m && line[|m|] == '.' && line[b] == '.' && line[b + 1..] == t && line[|m| + 1..b] == c
  {
  }

  /** The pattern of line 291 takes the text before the first and between the two dots it finds. */
  lemma MatchOfDots(line: string, a: nat, b: nat)
    requires 1 <= a && a + 2 <= b && b + 1 < |line|
    requires IndexOf(line[1..], '.') == Some(a - 1) && LastIndexOf(line[..|line| - 1], '.') == Some(b)
    ensures MatchModCtl(line) == Some((line[..a], line[a + 1..b]))
  {
  }

  /** On a single line the first pattern's match is the module and the controller. */
  lemma ModCtlOfMatch(line: string, mc: (string, string))
    requires '\n' !in line && MatchModCtl(line) == Some(mc)
    ensures ModCtl(line) == mc
  {
    OneLine(line);
    assert [line][0] == line;
  }

  /** A line whose first `.` is at `a` and whose last `.` before the end is at `b`, two or more further on. */
  lemma ModCtlAtDots(line: string, a: nat, b: nat)
    requires 1 <= a && a + 2 <= b && b + 1 < |line| && '\n' !in line
    requires line[a] == '.' && '.' !in line[..a] && line[b] == '.' && '.' !in line[b + 1..]
    ensures ModCtl(line) == (line[..a], line[a + 1..b])
  {
    FirstDotAt(line, a);
    LastDotAt(line, b);
    MatchOfDots(line, a, b);
    ModCtlOfMatch(line, (line[..a], line[a + 1..b]));
  }

  /** `m.c.t` with `.`-free, non-empty parts on one line: the module is `m` and the controller `c`. */
  lemma ModCtlOfRouteId(m: string, c: string, t: string)
    requires m != [] && c != [] && t != []
    requires '.' !in m && '.' !in c && '.' !in t
    requires '\n' !in m + "." + c + "." + t
    ensures ModCtl(m + "." + c + "." + t) == (m, c)
  {
    var line := m + "." + c + "." + t;
    RouteIdDots(m, c, t);
    ModCtlAtDots(line, |m|, |m| + 1 + |c|);
  }

  /** `c.t` with `.`-free, non-empty parts on one line: no module, and the controller is `c`. */
  lemma ModCtlOfPair(c: string, t: string)
    requires c != [] && t != [] && '.' !in c && '.' !in t && '\n' !in c + "." + t
    ensures ModCtl(c + "." + t) == ("", c)
  {
    var line := c + "." + t;
    assert line[..|c|] == c && line[|c|] == '.' && line[|c| + 1..] == t;
    FirstDotAt(line, |c|);
    if |t| >= 2 {
      LastDotAt(line, |c|);
    } else {
      var l := line[..|line| - 1];
      assert l == c + ".";
      forall j | 0 <= j < |c| ensures l[j] != '.' {
        assert l[j] == c[j];
      }
      assert LastIndexOf(l, '.') == Some(|c|);
    }
    assert MatchModCtl(line) == None;
    assert MatchCtl(line) == Some(c);
    OneLine(line);
    assert [line][0] == line && [line][1..] == [];
    assert FirstModCtl([line]) == None;
    assert FirstCtl([line]) == Some(c);
  }

  // ---------------------------------------------------------------- the host

  /** `Trim` of `/` followed by a clean text drops that `/` only. */
  lemma TrimLeadingSlash(u: string)
    requires u != [] && u[0] != '/' && u[|u| - 1] != '/'
    ensures Trim("/" + u, "/") == u
  {
    var s := "/" + u;
    TrimLeftUnique(s, "/", u);
    TrimClean(u, "/");
  }

  /**
   * Lines 330-331 with an empty base path: the host without its trailing `/`, one `/`, and the
   * URL without its leading and trailing `/`.
   */
  lemma HostPrefixPlain(host: string, url: string)
    requires url != [] && url[0] != '/' && url[|url| - 1] != '/'
    ensures HostPrefix(host, "", url) == TrimRight(host, "/") + "/" + url
  {
    TrimClean(url, "/");
    assert TrimRight("", "/") == "";
    assert "" + "/" + url == "/" + url;
    TrimLeadingSlash(url);
  }

  /**
   * Lines 326-340: a domain set for the controller `mod.ctl` wins, then one set for the module,
   * then the site's own host when a full URL is asked for; otherwise the URL is relative.
   */
  lemma DomainPrecedence(cfg: Config, mod: string, ctl: string, url: string, fullUrl: bool)
    requires mod != [] && ctl != [] && mod[0] != '.' && ctl[|ctl| - 1] != '.' && Truthy(mod)
    ensures mod + "." + ctl in cfg.domain ==>
      ApplyDomain(cfg, mod, ctl, url, fullUrl) == HostPrefix(cfg.domain[mod + "." + ctl], cfg.basePath, url)
    ensures mod + "." + ctl !in cfg.domain && mod in cfg.domain ==>
      ApplyDomain(cfg, mod, ctl, url, fullUrl) == HostPrefix(cfg.domain[mod], cfg.basePath, url)
    ensures mod + "." + ctl !in cfg.domain && mod !in cfg.domain && (fullUrl || cfg.fullUrl) ==>
      ApplyDomain(cfg, mod, ctl, url, fullUrl) == HostPrefix(cfg.hostInfo, cfg.basePath, url)
    ensures mod + "." + ctl !in cfg.domain && mod !in cfg.domain && !fullUrl && !cfg.fullUrl ==>
      ApplyDomain(cfg, mod, ctl, url, fullUrl) == url
  {
    var s := mod + "." + ctl;
    assert s[0] == mod[0] && s[|s| - 1] == ctl[|ctl| - 1];
    TrimClean(s, ".");
    assert |s| >= 3;
  }

  // ---------------------------------------------------------------- query and fragment

  /** Lines 343-345: a `?` after the first character makes the query join with `&`. */
  lemma QueryJoinsWithAmpersand(url: string, query: string)
    requires Truthy(query) && url != [] && url[0] != '?' && '?' in url
    ensures AppendQuery(url, query) == url + "&" + query
  {
  }

  /** Without a `?` in the URL the query starts with `?`. */
  lemma QueryStartsFresh(url: string, query: string)
    requires Truthy(query) && '?' !in url
    ensures AppendQuery(url, query) == url + "?" + query
  {
  }

  /** A `?` at position 0 is `strpos` giving 0, read as false: a second `?` is written. */
  lemma QueryAfterLeadingMark(url: string, query: string)
    requires Truthy(query) && url != [] && url[0] == '?'
    ensures AppendQuery(url, query) == url + "?" + query
  {
  }

  /** An empty query, or `"0"`, adds nothing. */
  lemma NoQuery(url: string, query: string)
    requires !Truthy(query)
    ensures AppendQuery(url, query) == url
  {
  }

  /**
   * Lines 319-321 and 343-345: without rewriting, the URL is `scriptName?url`, so a query always
   * joins with `&` when the entry script has a name without `?`.
   */
  lemma QueryAfterEntryScript(cfg: Config, url: string, vars: Pairs, query: string)
    requires !cfg.rewrite && cfg.scriptName != [] && '?' !in cfg.scriptName && Truthy(query)
    ensures AppendQuery(BuildPath(cfg, url, vars), query) == BuildPath(cfg, url, vars) + "&" + query
  {
    var p := BuildPath(cfg, url, vars);
    assert p[|cfg.scriptName|] == '?';
    assert p[0] == cfg.scriptName[0];
    QueryJoinsWithAmpersand(p, query);
  }

  /** Lines 348-350: a non-empty fragment is put back last, after its `#`. */
  lemma FragmentLast(url: string, fragment: string)
    ensures Truthy(fragment) ==> AppendFragment(url, fragment) == url + "#" + fragment
    ensures !Truthy(fragment) ==> AppendFragment(url, fragment) == url
  {
  }

  // ---------------------------------------------------------------- createUrl

  /**
   * Lines 254-265: `createUrl` of `path?query#fragment` builds `path` with that query and that
   * fragment; the `#` is found first, so a `?` inside the fragment stays there.
   */
  lemma CreateUrlSplits(cfg: Config, path: string, query: string, fragment: string, vars: Pairs, fullUrl: bool)
    requires '#' !in path && '?' !in path && '#' !in query
    ensures CreateUrl(cfg, path + "?" + query + "#" + fragment, vars, fullUrl)
      == BuildUrl(cfg, path, vars, query, fragment, fullUrl)
  {
    var before := path + "?" + query;
    assert '#' !in before;
    CutAt(before, fragment, '#');
    CutAt(path, query, '?');
  }

  /** `createUrl` of a URI with neither `#` nor `?` is `buildUrL` with no query and no fragment. */
  lemma CreateUrlPlain(cfg: Config, uri: string, vars: Pairs, fullUrl: bool)
    requires '#' !in uri && '?' !in uri
    ensures CreateUrl(cfg, uri, vars, fullUrl) == BuildUrl(cfg, uri, vars, "", "", fullUrl)
  {
  }

  /** `createUrl` of `path#fragment`: the fragment alone, no query. */
  lemma CreateUrlFragment(cfg: Config, path: string, fragment: string, vars: Pairs, fullUrl: bool)
    requires '#' !in path && '?' !in path
    ensures CreateUrl(cfg, path + "#" + fragment, vars, fullUrl) == BuildUrl(cfg, path, vars, "", fragment, fullUrl)
  {
    CutAt(path, fragment, '#');
  }

  // ---------------------------------------------------------------- buildUrL without a domain

  /**
   * With no domain table and no full URL, `buildUrL` is the built path followed by the query and
   * the fragment: lines 289-296 only feed the domain lookup.
   */
  lemma RelativeUrl(cfg: Config, uri: string, vars: Pairs, query: string, fragment: string)
    requires cfg.domain == map[] && !cfg.fullUrl
    ensures BuildUrl(cfg, uri, vars, query, fragment, false)
      == AppendFragment(AppendQuery(BuildPath(cfg, Trim(uri, "/"), vars), query), fragment)
  {
  }

  /**
   * Lines 298-321 without encoding: the URL of `rule/...` written with the tag of the first rule
   * that matches it, then the attributes, the suffix, and `scriptName?` in front when rewriting is off.
   */
  lemma AliasedPath(cfg: Config, url: string, vars: Pairs)
    requires !cfg.encode && cfg.alias != [] && RuleMatches(cfg.alias[0].1, url)
    ensures BuildPath(cfg, url, vars) == (if cfg.rewrite then "" else cfg.scriptName + "?")
      + (cfg.alias[0].0 + url[|Trim(cfg.alias[0].1, "/")|..] + AttrSuffix(vars) + cfg.rewriteExt)
  {
    ContractFirstRule(cfg.alias, url, 0);
  }

  /**
   * `createUrl("blog.post.view", ["sort" => "desc"])` with the alias `b` for `blog.post.view`,
   * rewriting off and the entry script `index.php` is `index.php?b/sort:desc`.
   */
  lemma ShortUrlOnEntryScript(cfg: Config, uri: string, vars: Pairs)
    requires !cfg.rewrite && !cfg.encode && !cfg.fullUrl && cfg.rewriteExt == "" && cfg.domain == map[]
    requires cfg.scriptName == "index.php" && cfg.alias == [("b", "blog.post.view")]
    requires uri == "blog.post.view" && vars == [("sort", "desc")]
    ensures CreateUrl(cfg, uri, vars, false) == "index.php?b/sort:desc"
  {
    var p := BuildPath(cfg, uri, vars);
    assert CreateUrl(cfg, uri, vars, false) == p by {
      BlogIdTrimmed(uri);
      BlogIdChars(uri);
      CreateUrlPlain(cfg, uri, vars, false);
      RelativeUrl(cfg, uri, vars, "", "");
    }
    assert p == cfg.scriptName + "?" + ("b" + "" + AttrSuffix(vars) + "") by {
      BlogIdTrimmed(uri);
      RuleMatchesItself(uri, "");
      assert uri + "" == uri;
      AliasedPath(cfg, uri, vars);
      assert uri[|uri|..] == "";
    }
    ParseLaws.SortDesc(vars, "sort", "desc");
    ShortUrlText(cfg.scriptName, "sort", "desc");
  }

  /** The pieces of the short URL, put together. */
  lemma ShortUrlText(s: string, k: string, v: string)
    requires s == "index.php" && k == "sort" && v == "desc"
    ensures s + "?" + ("b" + "" + ("/" + k + ":" + v) + "") == "index.php?b/sort:desc"
  {
  }

  /** The routing id of the examples has no `/` at either end, so `trim` leaves it. */
  lemma BlogIdTrimmed(uri: string)
    requires uri == "blog.post.view"
    ensures Trim(uri, "/") == uri
  {
    TrimClean(uri, "/");
  }

  /** The routing id of the examples has no `#`, `?`, `:` or `q`, and starts and ends with a letter. */
  lemma BlogIdChars(uri: string)
    requires uri == "blog.post.view"
    ensures '#' !in uri && '?' !in uri && 'q' !in uri && ':' !in uri
    ensures uri != [] && uri[0] != '/' && uri[|uri| - 1] != '/'
  {
  }

  // ---------------------------------------------------------------- domains

  /** Lower-casing never brings in a character that is not a lower-case letter. */
  lemma LowerKeepsAbsent(s: string, c: char)
    requires c !in s && !('a' <= c <= 'z')
    ensures c !in Lower(s)
  {
    forall i | 0 <= i < |s| ensures Lower(s)[i] != c {
      assert s[i] != c;
    }
  }

  /** `strtolower` of `m.c.t` is the three parts lower-cased, still `.`-free. */
  lemma LowerRouteId(m: string, c: string, t: string)
    requires '.' !in m && '.' !in c && '.' !in t
    ensures Lower(m + "." + c + "." + t) == Lower(m) + "." + Lower(c) + "." + Lower(t)
    ensures '.' !in Lower(m) && '.' !in Lower(c) && '.' !in Lower(t)
  {
    LowerAppend(m + "." + c + ".", t);
    LowerAppend(m + "." + c, ".");
    LowerAppend(m + ".", c);
    LowerAppend(m, ".");
    assert Lower(".") == ".";
    LowerKeepsAbsent(m, '.');
    LowerKeepsAbsent(c, '.');
    LowerKeepsAbsent(t, '.');
  }

  /**
   * Lines 289-296 and 326-340 on a URL `m.c.t`: the lookup uses the lower-cased names. A domain
   * set for `m.c` puts the URL on that host; otherwise a domain set for `m` does.
   */
  lemma DomainOfRoute(cfg: Config, m: string, c: string, t: string, vars: Pairs, fullUrl: bool)
    requires m != [] && c != [] && t != [] && '.' !in m && '.' !in c && '.' !in t && Truthy(Lower(m))
    requires '\n' !in m + "." + c + "." + t && m[0] != '/' && t[|t| - 1] != '/'
    ensures var url := m + "." + c + "." + t;
      var built := BuildUrl(cfg, url, vars, "", "", fullUrl);
      var key := Lower(m) + "." + Lower(c);
      (key in cfg.domain ==> built == HostPrefix(cfg.domain[key], cfg.basePath, BuildPath(cfg, url, vars)))
      && (key !in cfg.domain && Lower(m) in cfg.domain ==> built == HostPrefix(cfg.domain[Lower(m)], cfg.basePath, BuildPath(cfg, url, vars)))
  {
    var url := m + "." + c + "." + t;
    RouteIdKeys(m, c, t);
    DomainStep(cfg, url, vars, fullUrl, Lower(m), Lower(c));
    DomainPrecedence(cfg, Lower(m), Lower(c), BuildPath(cfg, url, vars), fullUrl);
  }

  /** What the domain lookup sees of a URL `m.c.t`: itself once trimmed, and the lower-cased `m` and `c`. */
  lemma RouteIdKeys(m: string, c: string, t: string)
    requires m != [] && c != [] && t != [] && '.' !in m && '.' !in c && '.' !in t
    requires '\n' !in m + "." + c + "." + t && m[0] != '/' && t[|t| - 1] != '/'
    ensures var url := m + "." + c + "." + t;
      Trim(url, "/") == url && ModCtl(Lower(url)) == (Lower(m), Lower(c))
      && Lower(m) != [] && Lower(c) != [] && Lower(m)[0] != '.' && Lower(c)[|Lower(c)| - 1] != '.'
  {
    RouteIdTrimmed(m, c, t);
    LoweredModCtl(m, c, t);
    LowerKeepsAbsent(m, '.');
    LowerKeepsAbsent(c, '.');
  }

  /** A URL `m.c.t` that neither starts nor ends with `/` is left by `trim`. */
  lemma RouteIdTrimmed(m: string, c: string, t: string)
    requires m != [] && t != [] && m[0] != '/' && t[|t| - 1] != '/'
    ensures Trim(m + "." + c + "." + t, "/") == m + "." + c + "." + t
  {
    var url := m + "." + c + "." + t;
    assert url[0] == m[0] && url[|url| - 1] == t[|t| - 1];
    TrimClean(url, "/");
  }

  /** The module and the controller the patterns find in the lower-cased `m.c.t`. */
  lemma LoweredModCtl(m: string, c: string, t: string)
    requires m != [] && c != [] && t != [] && '.' !in m && '.' !in c && '.' !in t
    requires '\n' !in m + "." + c + "." + t
    ensures ModCtl(Lower(m + "." + c + "." + t)) == (Lower(m), Lower(c))
  {
    var url := m + "." + c + "." + t;
    LowerRouteId(m, c, t);
    LowerKeepsAbsent(url, '\n');
    ModCtlOfRouteId(Lower(m), Lower(c), Lower(t));
  }

  /** `buildUrL` with no query and no fragment is the built path placed on its domain. */
  lemma DomainStep(cfg: Config, uri: string, vars: Pairs, fullUrl: bool, mod: string, ctl: string)
    requires Trim(uri, "/") == uri && ModCtl(Lower(uri)) == (mod, ctl)
    ensures BuildUrl(cfg, uri, vars, "", "", fullUrl) == ApplyDomain(cfg, mod, ctl, BuildPath(cfg, uri, vars), fullUrl)
  {
  }

  /** The routing id of the examples split at its dots, and what the domain lemma needs of it. */
  lemma BlogIdParts(url: string, m: string, c: string, t: string)
    requires url == "blog.post.view" && m == "blog" && c == "post" && t == "view"
    ensures url == m + "." + c + "." + t && '\n' !in url
    ensures '.' !in m && '.' !in c && '.' !in t
  {
  }

  /** The key of the controller's domain in the example. */
  lemma BlogPostKey(m: string, c: string)
    requires m == "blog" && c == "post"
    ensures Lower(m) + "." + Lower(c) == "blog.post" && Lower(m) == "blog"
  {
    LowerOfLower(m);
    LowerOfLower(c);
  }

  /**
   * A URL `m.c.t` whose controller `m.c` has a domain `h` (a host without a trailing `/`) is
   * `h/m.c.t`, when nothing else rewrites the URL.
   */
  lemma ControllerHost(cfg: Config, m: string, c: string, t: string, h: string)
    requires cfg.rewrite && !cfg.encode && cfg.rewriteExt == "" && cfg.basePath == "" && cfg.alias == []
    requires m != [] && c != [] && t != [] && '.' !in m && '.' !in c && '.' !in t && Truthy(Lower(m))
    requires '\n' !in m + "." + c + "." + t && m[0] != '/' && t[|t| - 1] != '/'
    requires '#' !in m + "." + c + "." + t && '?' !in m + "." + c + "." + t
    requires Lower(m) + "." + Lower(c) in cfg.domain && cfg.domain[Lower(m) + "." + Lower(c)] == h && TrimRight(h, "/") == h
    ensures CreateUrl(cfg, m + "." + c + "." + t, [], false) == h + "/" + (m + "." + c + "." + t)
  {
    var url := m + "." + c + "." + t;
    CreateUrlPlain(cfg, url, [], false);
    DomainOfRoute(cfg, m, c, t, [], false);
    assert BuildPath(cfg, url, []) == url by {
      assert url + "" == url;
    }
    assert url[0] == m[0] && url[|url| - 1] == t[|t| - 1];
    HostPrefixPlain(h, url);
  }

  /** The domain table of the example. */
  lemma BlogDomains(d: map<string, string>, h: string)
    requires d == map["blog.post" := "http://post.site.com", "blog" := "http://blog.site.com"] && h == "http://post.site.com"
    ensures "blog.post" in d && d["blog.post"] == h
  {
  }

  /**
   * With the domain `http://post.site.com` set for `blog.post` and `http://blog.site.com` for
   * `blog`, the URL of `blog.post.view` is on the first: the controller wins over its module.
   */
  lemma ControllerHostWins(cfg: Config, url: string)
    requires cfg.rewrite && !cfg.encode && cfg.rewriteExt == "" && cfg.basePath == "" && cfg.alias == []
    requires cfg.domain == map["blog.post" := "http://post.site.com", "blog" := "http://blog.site.com"]
    requires url == "blog.post.view"
    ensures CreateUrl(cfg, url, [], false) == "http://post.site.com" + "/" + url
  {
    BlogIdParts(url, "blog", "post", "view");
    BlogIdChars(url);
    BlogPostKey("blog", "post");
    BlogDomains(cfg.domain, "http://post.site.com");
    PostHost("http://post.site.com");
    ControllerHost(cfg, "blog", "post", "view", "http://post.site.com");
  }

  /** The host of the example has no trailing `/`. */
  lemma PostHost(h: string)
    requires h == "http://post.site.com"
    ensures TrimRight(h, "/") == h
  {
    TrimClean(h, "/");
  }

  // ---------------------------------------------------------------- encoding

  /** Base64url text holds none of the characters the parser cuts or strips at. */
  lemma SafeTextIsClean(e: string)
    requires forall i :: 0 <= i < |e| ==> Base64.IsUrlSafeChar(e[i])
    ensures ':' !in e && '/' !in e && '.' !in e && '?' !in e && '#' !in e && '&' !in e && '\n' !in e
  {
    forall i | 0 <= i < |e|
      ensures e[i] != ':' && e[i] != '/' && e[i] != '.' && e[i] != '?' && e[i] != '#' && e[i] != '&' && e[i] != '\n'
    {
      assert Base64.IsUrlSafeChar(e[i]);
    }
  }

  /** The encoded text holds none of the characters the parser cuts or strips at. */
  lemma EncodedIsClean(p: string)
    ensures var e := Base64.UrlEncode(p);
      ':' !in e && '/' !in e && '.' !in e && '?' !in e && '#' !in e && '&' !in e && '\n' !in e
  {
    SafeTextIsClean(Base64.UrlEncode(p));
  }

  /**
   * Lines 298-353 with encoding on and nothing else that rewrites the URL: a trimmed path with no
   * attributes comes out as `q_` and its base64url text, and nothing more.
   */
  lemma EncodedUrl(cfg: Config, url: string)
    requires cfg.encode && cfg.rewrite && cfg.rewriteExt == "" && cfg.alias == [] && cfg.domain == map[] && !cfg.fullUrl
    requires Trim(url, "/") == url
    ensures BuildUrl(cfg, url, [], "", "", false) == EncodePath(url)
  {
    assert url + "" == url;
    RelativeUrl(cfg, url, [], "", "");
    assert EncodePath(url) + "" == EncodePath(url);
  }

  /** A URI starting with `q` with none of the characters the cleaning steps cut at, and no `.`, `/` or `?` at its end. */
  predicate QuietUri(s: string) {
    s != [] && s[0] == 'q' && ':' !in s && '#' !in s && '&' !in s && '?' !in s
    && s[|s| - 1] != '.' && s[|s| - 1] != '/' && s[|s| - 1] != '?'
  }

  /** `q_` in front of clean text is such a URI. */
  lemma PrefixedIsQuiet(e: string)
    requires ':' !in e && '/' !in e && '.' !in e && '?' !in e && '#' !in e && '&' !in e
    ensures QuietUri("q_" + e)
  {
    var s := "q_" + e;
    if e != [] {
      assert s[|s| - 1] == e[|e| - 1];
    }
  }

  /** An encoded URL: `q_`, then characters none of which the parser cuts or trims at. */
  lemma EncodedUrlShape(p: string)
    ensures QuietUri(EncodePath(p))
  {
    EncodedIsClean(p);
    PrefixedIsQuiet(Base64.UrlEncode(p));
  }

  /** The cleaning steps of lines 118-135 leave such a URI as it is, on a root base path. */
  lemma QuietNormal(cfg: Config, s: string)
    requires cfg.basePath == "" && cfg.scriptName != [] && cfg.scriptName[0] != 'q' && QuietUri(s)
    ensures NormalizePath(cfg, s) == s
  {
    QuietHosts(s);
    QuietBase(cfg, s);
    QuietScript(cfg, s);
    QuietTrim(s);
    NormalizeFixed(cfg, s);
  }

  lemma QuietTrim(s: string)
    requires QuietUri(s)
    ensures Trim(s, "./?") == s
  {
    var cs := "./?";
    var c := s[|s| - 1];
    assert c !in cs && 'q' !in cs;
    TrimClean(s, cs);
  }

  lemma QuietHosts(s: string)
    requires QuietUri(s)
    ensures Trim(StripHosts(s), "/") == s
  {
    StripHostsNoColon(s);
    TrimClean(s, "/");
  }

  lemma QuietBase(cfg: Config, s: string)
    requires cfg.basePath == ""
    ensures StripBasePath(cfg.basePath, s) == s
  {
    assert Trim(cfg.basePath, "/") == "";
  }

  lemma QuietScript(cfg: Config, s: string)
    requires cfg.scriptName != [] && s != [] && s[0] != cfg.scriptName[0]
    ensures StripScriptName(cfg.scriptName, s) == s
  {
  }

  /** A URI every cleaning step leaves as it is. */
  lemma NormalizeFixed(cfg: Config, s: string)
    requires Trim(StripHosts(s), "/") == s && StripBasePath(cfg.basePath, s) == s
    requires StripScriptName(cfg.scriptName, s) == s && Trim(s, "./?") == s
    ensures NormalizePath(cfg, s) == s
  {
  }

  /** Such a URI has no fragment and no query to split off. */
  lemma QuietPieces(s: string)
    requires QuietUri(s)
    ensures SplitAnchorQuery(s) == Pieces(s, None, None)
  {
    ReplaceAbsent(s, '?', '&');
    assert Cut(s, '#') == (s, None) && Cut(s, '&') == (s, None);
  }

  /** The cleaning steps of lines 118-135 leave an encoded URL as it is. */
  lemma EncodedSurvivesCleaning(cfg: Config, p: string)
    requires cfg.basePath == "" && cfg.scriptName != [] && cfg.scriptName[0] != 'q'
    ensures NormalizePath(cfg, EncodePath(p)) == EncodePath(p)
  {
    EncodedUrlShape(p);
    QuietNormal(cfg, EncodePath(p));
  }

  /**
   * The encoding round trip: with encoding on, the URL built for a path routes exactly as the path
   * itself does (lines 313-316 undone by lines 164-167), when the path is not empty and its
   * characters are bytes.
   */
  lemma EncodedRoundTrip(cfg: Config, url: string)
    requires cfg.encode && cfg.rewrite && cfg.rewriteExt == "" && cfg.alias == [] && cfg.domain == map[] && !cfg.fullUrl
    requires cfg.basePath == "" && cfg.scriptName != [] && cfg.scriptName[0] != 'q'
    requires url != [] && Base64.IsByteString(url) && Trim(url, "/") == url
    ensures ParseRoute(cfg, BuildUrl(cfg, url, [], "", "", false)) == RouteOfPath(cfg, InitialVO(cfg), url)
  {
    var s := EncodePath(url);
    EncodedUrl(cfg, url);
    EncodedUrlShape(url);
    QuietNormal(cfg, s);
    QuietPieces(s);
    ParseLaws.PayloadRoundTrip(url);
    EncodedParse(cfg, s, url);
  }

  /** A URI the cleaning steps keep whole, with nothing to split off, routes as the path its payload holds. */
  lemma EncodedParse(cfg: Config, s: string, url: string)
    requires cfg.encode && cfg.rewriteExt == "" && QuietUri(s)
    requires NormalizePath(cfg, s) == s && SplitAnchorQuery(s) == Pieces(s, None, None) && DecodePayload(true, s) == url
    ensures ParseRoute(cfg, s) == RouteOfPath(cfg, InitialVO(cfg), url)
  {
    assert Truthy(s) by {
      assert s[0] == 'q';
    }
    assert StripRewriteExt(cfg.rewriteExt, s) == s by {
      assert !Truthy(cfg.rewriteExt);
    }
    ParseLaws.CleanParse(cfg, s, url);
  }

  /**
   * With encoding on, the URL built for a plain request starts with `q_` and routes as the request
   * itself does.
   */
  lemma EncodedRequest(cfg: Config, url: string)
    requires cfg.encode && cfg.rewrite && cfg.rewriteExt == "" && cfg.alias == [] && cfg.domain == map[] && !cfg.fullUrl
    requires cfg.basePath == "" && cfg.scriptName != [] && cfg.scriptName[0] != 'q'
    requires Base64.IsByteString(url) && Trim(url, "/") == url && ParseLaws.PlainRequest(cfg, url)
    ensures var built := BuildUrl(cfg, url, [], "", "", false);
      StartsWith(built, "q_") && ParseRoute(cfg, built) == ParseRoute(cfg, url)
  {
    EncodedRoundTrip(cfg, url);
    ParseLaws.PlainParse(cfg, url);
    EncodedUrl(cfg, url);
    StartsWithAppend("q_", Base64.UrlEncode(url));
  }

  /** The routing id of the examples is a byte string with no `//`. */
  lemma BlogIdBytes(uri: string)
    requires uri == "blog.post.view"
    ensures Base64.IsByteString(uri) && ParseLaws.NoDoubleSlash(uri) && '&' !in uri
    ensures uri[0] == 'b' && uri[|uri| - 1] == 'w' && uri != "0"
  {
  }

  /** `createUrl` with encoding on, of a plain URI with no `q`, on a root base path. */
  lemma EncodedCreate(cfg: Config, url: string)
    requires cfg.encode && cfg.rewrite && cfg.rewriteExt == "" && cfg.alias == [] && cfg.domain == map[] && !cfg.fullUrl
    requires cfg.basePath == "" && cfg.scriptName != [] && cfg.scriptName[0] != 'q'
    requires url != [] && url[0] != cfg.scriptName[0] && url[0] !in "./" && url[|url| - 1] !in "./" && url != "0"
    requires ParseLaws.NoDoubleSlash(url) && '#' !in url && '&' !in url && '?' !in url && 'q' !in url
    requires Base64.IsByteString(url) && Trim(url, "/") == url
    ensures var built := CreateUrl(cfg, url, [], false);
      StartsWith(built, "q_") && ParseRoute(cfg, built) == ParseRoute(cfg, url)
  {
    CreateUrlPlain(cfg, url, [], false);
    ParseLaws.PlainUri(cfg, url);
    EncodedRequest(cfg, url);
  }

  /** The entry script of the examples. */
  lemma IndexScript(s: string)
    requires s == "index.php"
    ensures s != [] && s[0] == 'i'
  {
  }

  /**
   * `createUrl("blog.post.view")` with encoding on starts with `q_`, and `parse` routes it as it
   * routes `blog.post.view` itself.
   */
  lemma EncodedBlogUrl(cfg: Config, url: string)
    requires cfg.encode && cfg.rewrite && cfg.rewriteExt == "" && cfg.alias == [] && cfg.domain == map[] && !cfg.fullUrl
    requires cfg.basePath == "" && cfg.scriptName == "index.php" && url == "blog.post.view"
    ensures var built := CreateUrl(cfg, url, [], false);
      StartsWith(built, "q_") && ParseRoute(cfg, built) == ParseRoute(cfg, url)
  {
    BlogIdChars(url);
    BlogIdTrimmed(url);
    BlogIdBytes(url);
    IndexScript(cfg.scriptName);
    EncodedCreate(cfg, url);
  }
}
