/**
 * What the cleaning steps of `Simple::parse` (lib/Simple.php:116-135) remove: a leading
 * `http://host/` or `https://host/`, the base path at the start, and the entry script at the
 * start; and what the whole cleaning makes of a full URL on the site's host.
 */
module CleanLaws {
  import opened Wrappers
  import opened Strings
  import opened RouteModel
  import opened ParseSpec
  import ParseLaws

  // ---------------------------------------------------------------- hosts (line 118)

  /** The first `/` on the line of `h/t`, for an `h` with no `/` and no newline, is the one after `h`. */
  lemma FirstSlash(h: string, t: string)
    requires '/' !in h && '\n' !in h
    ensures FirstInLine(h + "/" + t, '/') == Some(|h|)
  {
    var s := h + "/" + t;
    assert Line(s)[|h|] == '/';
  }

  /** `/(http|https)\:\/\/.*?\//` matches `http://h/` at the start of `http://h/t`: up to the first `/` after the host. */
  lemma HttpHead(h: string, t: string)
    requires '/' !in h && '\n' !in h
    ensures HostMatchLen("http://" + h + "/" + t) == Some(8 + |h|)
  {
    var s := "http://" + h + "/" + t;
    assert s[..7] == "http://";
    assert s[7..] == h + "/" + t;
    FirstSlash(h, t);
  }

  /** ... and `https://h/` at the start of `https://h/t`. */
  lemma HttpsHead(h: string, t: string)
    requires '/' !in h && '\n' !in h
    ensures HostMatchLen("https://" + h + "/" + t) == Some(9 + |h|)
  {
    var s := "https://" + h + "/" + t;
    assert s[..7][4] == 's';
    assert s[..8] == "https://";
    assert s[8..] == h + "/" + t;
    FirstSlash(h, t);
  }

  /** Line 118 removes a leading `http://h/` and goes on with the rest. */
  lemma StripHttpHost(h: string, t: string)
    requires '/' !in h && '\n' !in h
    ensures StripHosts("http://" + h + "/" + t) == StripHosts(t)
  {
    var s := "http://" + h + "/" + t;
    HttpHead(h, t);
    assert s[8 + |h|..] == t;
  }

  /** Line 118 removes a leading `https://h/` and goes on with the rest. */
  lemma StripHttpsHost(h: string, t: string)
    requires '/' !in h && '\n' !in h
    ensures StripHosts("https://" + h + "/" + t) == StripHosts(t)
  {
    var s := "https://" + h + "/" + t;
    HttpsHead(h, t);
    assert s[9 + |h|..] == t;
  }

  /**
   * A host the parser can take off again: `http://` or `https://` in lower case, then a non-empty
   * name with no `/` and no newline.
   */
  predicate SiteHost(host: string) {
    var k := if StartsWith(host, "http://") then 7 else 8;
    (StartsWith(host, "http://") || StartsWith(host, "https://"))
    && k < |host| && '/' !in host[k..] && '\n' !in host[k..]
  }

  /** Line 118 removes such a host and the `/` after it, whatever follows. */
  lemma StripSiteHost(host: string, t: string)
    requires SiteHost(host)
    ensures StripHosts(host + "/" + t) == StripHosts(t)
  {
    if StartsWith(host, "http://") {
      var h := host[7..];
      assert host == "http://" + h;
      assert host + "/" + t == "http://" + h + "/" + t;
      StripHttpHost(h, t);
    } else {
      var h := host[8..];
      assert host == "https://" + h;
      assert host + "/" + t == "https://" + h + "/" + t;
      StripHttpsHost(h, t);
    }
  }

  /** Such a host does not end in `/`: `rtrim($host, '/')` keeps it. */
  lemma SiteHostTrimmed(host: string)
    requires SiteHost(host)
    ensures TrimRight(host, "/") == host
  {
    var k := if StartsWith(host, "http://") then 7 else 8;
    assert host[|host| - 1] == host[k..][|host| - 1 - k];
  }

  // ---------------------------------------------------------------- the base path (lines 122-126)

  /** A leading `/` makes no difference to `trim($s, '/')`. */
  lemma TrimSlashHead(t: string)
    ensures Trim("/" + t, "/") == Trim(t, "/")
  {
    assert ("/" + t)[1..] == t;
  }

  /**
   * Lines 122-126: the trimmed base path is cut from the start as plain text, with no `/` needed
   * after it, and the rest is trimmed of `/`.
   */
  lemma StripBasePathCut(basePath: string, t: string)
    requires Truthy(Trim(basePath, "/"))
    ensures StripBasePath(basePath, Trim(basePath, "/") + t) == Trim(t, "/")
  {
    var base := Trim(basePath, "/");
    StartsWithAppend(base, t);
    assert (base + t)[|base|..] == t;
  }

  /** The base path as a whole first segment is cut with the `/` after it. */
  lemma StripBaseSegment(basePath: string, t: string)
    requires Truthy(Trim(basePath, "/"))
    ensures StripBasePath(basePath, Trim(basePath, "/") + "/" + t) == Trim(t, "/")
  {
    var base := Trim(basePath, "/");
    assert base + "/" + t == base + ("/" + t);
    StripBasePathCut(basePath, "/" + t);
    TrimSlashHead(t);
  }

  // ---------------------------------------------------------------- the entry script (lines 131-134)

  /** Lines 131-134: a non-empty URI starting with the entry script loses it. */
  lemma StripScriptNameCut(scriptName: string, t: string)
    requires Truthy(scriptName + t)
    ensures StripScriptName(scriptName, scriptName + t) == t
  {
    StartsWithAppend(scriptName, t);
    assert (scriptName + t)[|scriptName|..] == t;
  }

  // ---------------------------------------------------------------- the whole cleaning

  /** The cleaning depends on the request only through the path it leaves: equal paths, equal routes. */
  lemma SameCleanPath(cfg: Config, u: string, v: string)
    requires NormalizePath(cfg, u) == NormalizePath(cfg, v)
    ensures ParseRoute(cfg, u) == ParseRoute(cfg, v)
  {
    var p := NormalizePath(cfg, u);
    if Truthy(p) {
      var pieces := SplitAnchorQuery(p);
      var vo := InitialVO(cfg).(anchor := pieces.anchor.GetOr(""), query := pieces.query.GetOr(""));
      var path := DecodePayload(cfg.encode, StripRewriteExt(cfg.rewriteExt, pieces.path));
      ParseRouteSteps(cfg, u, vo, path);
      ParseRouteSteps(cfg, v, vo, path);
    } else {
      ParseRouteHome(cfg, u);
      ParseRouteHome(cfg, v);
    }
  }

  /** No `//` in `a + b` when there is none in either and the joint is not `//`. */
  lemma NoDoubleSlashJoin(a: string, b: string)
    requires ParseLaws.NoDoubleSlash(a) && ParseLaws.NoDoubleSlash(b)
    requires a != [] && b != [] ==> !(a[|a| - 1] == '/' && b[0] == '/')
    ensures ParseLaws.NoDoubleSlash(a + b)
  {
    var s := a + b;
    forall i | 0 < i < |s| ensures !(s[i - 1] == '/' && s[i] == '/') {
      if i < |a| {
        assert s[i - 1] == a[i - 1] && s[i] == a[i];
      } else if i == |a| {
        assert s[i - 1] == a[|a| - 1] && s[i] == b[0];
      } else {
        assert s[i - 1] == b[i - 1 - |a|] && s[i] == b[i - |a|];
      }
    }
  }

  /**
   * A request on the site's host with an empty base path: `http(s)://host/c`. Lines 118-126 leave
   * exactly `c`, when nothing in `c` looks like another host and its ends are not `/`.
   */
  lemma SiteRequestBare(basePath: string, host: string, c: string)
    requires SiteHost(host) && Trim(basePath, "/") == []
    requires ParseLaws.NoDoubleSlash(c) && c != [] && c[0] != '/' && c[|c| - 1] != '/'
    ensures StripBasePath(basePath, Trim(StripHosts(host + "/" + c), "/")) == c
  {
    TrimClean(c, "/");
    SiteHostRest(host, c);
  }

  /**
   * A request on the site's host under its base path: `http(s)://host/base/c`. Lines 118-126
   * leave exactly `c`, when nothing in `base/c` looks like another host and the ends of `c` are
   * not `/`.
   */
  lemma SiteRequestBased(basePath: string, host: string, c: string, r: string)
    requires SiteHost(host) && Truthy(Trim(basePath, "/")) && r == Trim(basePath, "/") + "/" + c
    requires ParseLaws.NoDoubleSlash(r) && c != [] && c[0] != '/' && c[|c| - 1] != '/'
    ensures StripBasePath(basePath, Trim(StripHosts(host + "/" + r), "/")) == c
  {
    SlashJoinTrimmed(Trim(basePath, "/"), c);
    SiteHostRest(host, r);
    BaseCut(basePath, c);
  }

  /** Line 118 takes the host off `http(s)://host/r`, and line 119 leaves `r`, when nothing in `r` looks like a host. */
  lemma SiteHostRest(host: string, r: string)
    requires SiteHost(host) && ParseLaws.NoDoubleSlash(r) && Trim(r, "/") == r
    ensures Trim(StripHosts(host + "/" + r), "/") == r
  {
    StripSiteHost(host, r);
    ParseLaws.StripHostsPlain(r);
  }

  /** Lines 122-126 cut the base path and the `/` after it from `base/c`, and leave `c`. */
  lemma BaseCut(basePath: string, c: string)
    requires Truthy(Trim(basePath, "/")) && c != [] && c[0] != '/' && c[|c| - 1] != '/'
    ensures StripBasePath(basePath, Trim(basePath, "/") + "/" + c) == c
  {
    StripBaseSegment(basePath, c);
    TrimClean(c, "/");
  }

  /** `base/c` for a trimmed non-empty `base` and a `c` that does not end in `/` is trimmed. */
  lemma SlashJoinTrimmed(base: string, c: string)
    requires base != [] && base[0] != '/' && c != [] && c[|c| - 1] != '/'
    ensures Trim(base + "/" + c, "/") == base + "/" + c
  {
    var r := base + "/" + c;
    assert r[0] == base[0] && r[|r| - 1] == c[|c| - 1];
    TrimClean(r, "/");
  }

  /** The base path, when it is not empty, and the slash after it, in front of `c`. */
  function UnderBase(basePath: string, c: string): string {
    var base := Trim(basePath, "/");
    if base == [] then c else base + "/" + c
  }

  /**
   * A full URL `http(s)://host/base/index.php?p` (the base path left out when it is empty) is
   * cleaned to `p`, and so routes as `p` itself does when `p` is a request no cleaning step touches.
   */
  lemma FullEntryRequest(cfg: Config, host: string, p: string)
    requires SiteHost(host) && Trim(cfg.basePath, "/") != "0"
    requires cfg.scriptName == [] || (cfg.scriptName[0] != '/' && ParseLaws.NoDoubleSlash(cfg.scriptName))
    requires ParseLaws.NoDoubleSlash(Trim(cfg.basePath, "/")) && ParseLaws.PlainRequest(cfg, p)
    ensures ParseRoute(cfg, host + "/" + UnderBase(cfg.basePath, cfg.scriptName + "?" + p)) == ParseRoute(cfg, p)
  {
    var u := host + "/" + UnderBase(cfg.basePath, cfg.scriptName + "?" + p);
    FullEntryPath(cfg, host, p);
    PlainFixed(cfg, p);
    SameCleanPath(cfg, u, p);
  }

  /** Lines 118-135 take the host, the base path and `index.php?` off such a URL. */
  lemma FullEntryPath(cfg: Config, host: string, p: string)
    requires SiteHost(host) && Trim(cfg.basePath, "/") != "0"
    requires cfg.scriptName == [] || (cfg.scriptName[0] != '/' && ParseLaws.NoDoubleSlash(cfg.scriptName))
    requires ParseLaws.NoDoubleSlash(Trim(cfg.basePath, "/")) && ParseLaws.PlainRequest(cfg, p)
    ensures NormalizePath(cfg, host + "/" + UnderBase(cfg.basePath, cfg.scriptName + "?" + p)) == p
  {
    var c := cfg.scriptName + "?" + p;
    EntryText(cfg.scriptName, p);
    SiteRequestCut(cfg, host, c);
    EntryCut(cfg.scriptName, p);
    CleanedVia(cfg, host + "/" + UnderBase(cfg.basePath, c), c, p);
  }

  /** Lines 131-135 take `index.php?` off `index.php?p`. */
  lemma EntryCut(scriptName: string, p: string)
    requires p != [] && p[0] != '.' && p[0] != '/' && p[0] != '?'
    requires p[|p| - 1] != '.' && p[|p| - 1] != '/' && p[|p| - 1] != '?'
    ensures Trim(StripScriptName(scriptName, scriptName + "?" + p), "./?") == p
  {
    StripScriptNameCut(scriptName, "?" + p);
    assert scriptName + ("?" + p) == scriptName + "?" + p;
    QuestionTrim(p);
  }

  /** The cleaning of lines 118-135 in two halves: hosts and base path, then entry script and trim. */
  lemma CleanedVia(cfg: Config, u: string, c: string, p: string)
    requires StripBasePath(cfg.basePath, Trim(StripHosts(u), "/")) == c
    requires Trim(StripScriptName(cfg.scriptName, c), "./?") == p
    ensures NormalizePath(cfg, u) == p
  {
  }

  /** Lines 118-126 leave `index.php?p` of such a URL. */
  lemma SiteRequestCut(cfg: Config, host: string, c: string)
    requires SiteHost(host) && Trim(cfg.basePath, "/") != "0"
    requires ParseLaws.NoDoubleSlash(Trim(cfg.basePath, "/"))
    requires ParseLaws.NoDoubleSlash(c) && c != [] && c[0] != '/' && c[|c| - 1] != '/'
    ensures StripBasePath(cfg.basePath, Trim(StripHosts(host + "/" + UnderBase(cfg.basePath, c)), "/")) == c
  {
    var base := Trim(cfg.basePath, "/");
    if base == [] {
      SiteRequestBare(cfg.basePath, host, c);
    } else {
      assert ParseLaws.NoDoubleSlash(base + "/" + c) by {
        NoDoubleSlashJoin(base, "/");
        NoDoubleSlashJoin(base + "/", c);
      }
      SiteRequestBased(cfg.basePath, host, c, UnderBase(cfg.basePath, c));
    }
  }

  /** A request no cleaning step touches is its own clean path. */
  lemma PlainFixed(cfg: Config, p: string)
    requires ParseLaws.PlainRequest(cfg, p)
    ensures NormalizePath(cfg, p) == p
  {
    ParseLaws.StripHostsPlain(p);
    ParseLaws.PlainTrim(p);
  }

  /** `scriptName?p` for a plain `p` has no `//` and its ends are not `/`. */
  lemma EntryText(scriptName: string, p: string)
    requires scriptName == [] || (scriptName[0] != '/' && ParseLaws.NoDoubleSlash(scriptName))
    requires ParseLaws.NoDoubleSlash(p) && p != [] && p[|p| - 1] != '/'
    ensures var c := scriptName + "?" + p;
      ParseLaws.NoDoubleSlash(c) && c[0] != '/' && c[|c| - 1] != '/'
  {
    var c := scriptName + "?" + p;
    NoDoubleSlashJoin(scriptName, "?");
    NoDoubleSlashJoin(scriptName + "?", p);
    assert c[|c| - 1] == p[|p| - 1];
    if scriptName == [] {
      assert c[0] == '?';
    } else {
      assert c[0] == scriptName[0];
    }
  }

  /** Line 135 drops the `?` left in front of `p` by the entry script. */
  lemma QuestionTrim(p: string)
    requires p != [] && p[0] != '.' && p[0] != '/' && p[0] != '?'
    requires p[|p| - 1] != '.' && p[|p| - 1] != '/' && p[|p| - 1] != '?'
    ensures Trim("?" + p, "./?") == p
  {
    var cs := "./?";
    var s := "?" + p;
    assert p[0] !in cs && p[|p| - 1] !in cs;
    assert s[1..] == p;
    TrimLeftUnique(s, cs, p);
    TrimClean(p, cs);
  }
}
