/**
 * URLs `toUrl` writes that `parse` does not route back, because lib/Simple.php tests two
 * prefixes as text and not as whole path segments: the base path at lines 123-125 and the entry
 * script at lines 132-134. These are the cases the round trip of `RoundTrip.ToUrlParse` leaves
 * out with its `Apart` conditions.
 */
module PrefixQuirks {
  import opened Strings
  import opened RouteModel
  import opened ParseSpec
  import opened BuildSpec
  import ParseLaws
  import BuildLaws
  import CleanLaws

  /** A name `toUrl` and `parse` both keep as it is: routing-id characters, no `.`, no capitals. */
  predicate Word(s: string) {
    s != [] && IsRouteId(s) && '.' !in s && forall i :: 0 <= i < |s| ==> !('A' <= s[i] <= 'Z')
  }

  // ---------------------------------------------------------------- the base path

  /**
   * With modules on and a record whose module is the base path's own text, the relative URL
   * `mod.ctl.act` that `toUrl` writes starts with that text, so `parse` cuts it off as the base
   * path and routes the rest: the controller becomes the module and the action the controller.
   * (A browser resolves that link under the base path, and the request `/base/mod.ctl.act` does
   * route back.)
   */
  lemma BaseTextPrefix(cfg: Config, vo: RouteVO)
    requires cfg.useModule && cfg.rewrite && !cfg.encode && !cfg.fullUrl && cfg.rewriteExt == ""
    requires cfg.alias == [] && cfg.domain == map[] && cfg.scriptName != [] && cfg.scriptName[0] != '.'
    requires vo == EmptyVO.(mod := vo.mod, ctl := vo.ctl, act := vo.act)
    requires Word(vo.mod) && Word(vo.ctl) && Word(vo.act) && vo.mod == Trim(cfg.basePath, "/") && Truthy(vo.mod)
    requires !StartsWith(vo.ctl + "." + vo.act, vo.mod) && !StartsWith(vo.ctl + "." + vo.act, cfg.scriptName)
    ensures ToUrl(cfg, vo, false) == vo.mod + "." + vo.ctl + "." + vo.act
    ensures var r := ParseRoute(cfg, ToUrl(cfg, vo, false));
      r.mod == vo.ctl && r.ctl == vo.act && r.act == cfg.defaultAct && r.mod != vo.mod
  {
    var w := vo.mod + "." + vo.ctl + "." + vo.act;
    BaseWritten(cfg, vo, w);
    BaseRoutes(cfg, w, vo.mod, vo.ctl, vo.act);
    NotSelfPrefix(vo.mod, vo.ctl, vo.act);
  }

  /** `toUrl` writes the record `mod.ctl.act` as it is. */
  lemma BaseWritten(cfg: Config, vo: RouteVO, w: string)
    requires cfg.rewrite && !cfg.encode && !cfg.fullUrl && cfg.rewriteExt == "" && cfg.alias == [] && cfg.domain == map[]
    requires vo == EmptyVO.(mod := vo.mod, ctl := vo.ctl, act := vo.act)
    requires Word(vo.mod) && Word(vo.ctl) && Word(vo.act) && w == vo.mod + "." + vo.ctl + "." + vo.act
    ensures ToUrl(cfg, vo, false) == w
  {
    BaseRouteUri(vo, w);
    RelativeUrlText(cfg, vo, w);
  }

  /** The routing id of the record `mod.ctl.act` is that text; it has no `/`. */
  lemma BaseRouteUri(vo: RouteVO, w: string)
    requires vo.actParams == [] && Word(vo.mod) && Word(vo.ctl) && Word(vo.act) && w == vo.mod + "." + vo.ctl + "." + vo.act
    ensures RouteUri(vo) == w && w != [] && w[0] != '/' && w[|w| - 1] != '/'
  {
    var id := vo.mod + "." + vo.ctl;
    IdChars(vo.mod, vo.ctl, id);
    IdChars(id, vo.act, w);
    TrimClean(w, ".");
  }

  /** The request `base.c.a`, with `base` the base path's text, routes as `c.a`. */
  lemma BaseRoutes(cfg: Config, w: string, base: string, c: string, a: string)
    requires cfg.useModule && !cfg.encode && cfg.rewriteExt == "" && cfg.alias == []
    requires cfg.scriptName != [] && cfg.scriptName[0] != '.'
    requires Word(base) && Word(c) && Word(a) && base == Trim(cfg.basePath, "/") && Truthy(base)
    requires w == base + "." + c + "." + a
    requires !StartsWith(c + "." + a, base) && !StartsWith(c + "." + a, cfg.scriptName)
    ensures var r := ParseRoute(cfg, w);
      r.mod == c && r.ctl == a && r.act == cfg.defaultAct
  {
    var p := c + "." + a;
    var t := "." + p;
    assert w == base + t by { Regroup(base, c, a, t, w); }
    assert '/' !in w by {
      var id := base + "." + c;
      IdChars(base, c, id);
      IdChars(id, a, w);
    }
    assert p != [] && p[0] !in "./?" && p[|p| - 1] !in "./?" by {
      IdChars(c, a, p);
    }
    assert NormalizePath(cfg, w) == p by {
      BaseTextCut(cfg, w, base, t, p);
    }
    RoutedLeft(cfg, w, c, a);
  }

  /** A text `c.a` that does not start with `m` has `c` different from `m`. */
  lemma NotSelfPrefix(m: string, c: string, a: string)
    requires !StartsWith(c + "." + a, m)
    ensures c != m
  {
    StartsWithAppend(c, "." + a);
    assert c + "." + a == c + ("." + a);
  }

  /** `m.c.a` read as `m` followed by `.c.a`. */
  lemma Regroup(m: string, c: string, a: string, t: string, w: string)
    requires t == "." + (c + "." + a) && w == m + "." + c + "." + a
    ensures w == m + t
  {
  }

  /** The base-path case with the base path `/blog/` and the record `blog.post.view`: it comes back as `post.view`. */
  lemma BlogUnderBlog(cfg: Config, vo: RouteVO)
    requires cfg == ParseLaws.ModuleCfg.(basePath := "/blog/")
    requires vo == EmptyVO.(mod := "blog", ctl := "post", act := "view")
    ensures var r := ParseRoute(cfg, ToUrl(cfg, vo, false));
      r.mod == "post" && r.ctl == "view" && r.act == "index" && r != WithCtlClass(vo)
  {
    BlogFields(cfg);
    BlogBase(cfg.basePath);
    LowerWord(vo.mod);
    LowerWord(vo.ctl);
    LowerWord(vo.act);
    PostViewApart(vo.ctl + "." + vo.act, vo.mod, cfg.scriptName);
    BaseTextPrefix(cfg, vo);
  }

  /** The options of the base-path example that `toUrl` and `parse` look at. */
  lemma BlogFields(cfg: Config)
    requires cfg == ParseLaws.ModuleCfg.(basePath := "/blog/")
    ensures cfg.useModule && cfg.rewrite && !cfg.encode && !cfg.fullUrl && cfg.rewriteExt == ""
    ensures cfg.alias == [] && cfg.domain == map[] && cfg.basePath == "/blog/" && cfg.scriptName == "index.php"
    ensures cfg.defaultAct == "index"
  {
  }

  lemma BlogBase(bp: string)
    requires bp == "/blog/"
    ensures Trim(bp, "/") == "blog"
  {
    TrimLeftUnique(bp, "/", "blog/");
    TrimRightUnique("blog/", "/", "blog");
  }

  lemma LowerWord(s: string)
    requires s == "blog" || s == "post" || s == "view"
    ensures Word(s) && Truthy(s)
  {
  }

  lemma PostViewApart(id: string, base: string, script: string)
    requires id == "post" + "." + "view" && base == "blog" && script == "index.php"
    ensures !StartsWith(id, base) && !StartsWith(id, script) && script != [] && script[0] != '.'
  {
    assert id[..4][0] != base[0] && id[..9][0] != script[0];
  }

  /**
   * A one-segment request `base` + `t`, where `base` is what is left of the base path and `t` is
   * `.` followed by `p`, is cleaned to `p`.
   */
  lemma BaseTextCut(cfg: Config, w: string, base: string, t: string, p: string)
    requires Truthy(base) && Trim(cfg.basePath, "/") == base && w == base + t && '/' !in w
    requires t == "." + p && p != [] && p[0] !in "./?" && p[|p| - 1] !in "./?"
    requires cfg.scriptName != [] && cfg.scriptName[0] != '.'
    ensures NormalizePath(cfg, w) == p
  {
    assert t[|t| - 1] == p[|p| - 1];
    BaseOff(cfg.basePath, w, base, t);
    assert !StartsWith(t, cfg.scriptName) by {
      if |cfg.scriptName| <= |t| { assert t[..|cfg.scriptName|][0] == '.'; }
    }
    assert StripScriptName(cfg.scriptName, t) == t;
    DotOff(t, p);
  }

  /** Lines 118-126 on the one-segment `base` + `t`: the base path's text goes. */
  lemma BaseOff(basePath: string, w: string, base: string, t: string)
    requires Truthy(base) && Trim(basePath, "/") == base && w == base + t && '/' !in w
    requires t != [] && t[0] != '/' && t[|t| - 1] != '/'
    ensures StripBasePath(basePath, Trim(StripHosts(w), "/")) == t
  {
    OneSegment(w);
    TrimClean(w, "/");
    CleanLaws.StripBasePathCut(basePath, t);
    TrimClean(t, "/");
  }

  /** Line 135 on `.` followed by `p`: the `.` goes. */
  lemma DotOff(t: string, p: string)
    requires t == "." + p && p != [] && p[0] !in "./?" && p[|p| - 1] !in "./?"
    ensures Trim(t, "./?") == p
  {
    TrimLeftUnique(t, "./?", p);
    TrimClean(p, "./?");
  }

  // ---------------------------------------------------------------- the entry script

  /**
   * With rewriting on, no base path and modules off, the URL `toUrl` writes for a controller and
   * an action that together spell the entry script's name (`index` and `php` for `index.php`) is
   * that name: `parse` cuts it off as the entry script, nothing is left, and the request `/ctl.act`
   * is the home route.
   */
  lemma ScriptTextPrefix(cfg: Config, vo: RouteVO)
    requires !cfg.useModule && cfg.rewrite && !cfg.encode && !cfg.fullUrl && cfg.rewriteExt == ""
    requires cfg.alias == [] && cfg.domain == map[] && Trim(cfg.basePath, "/") == ""
    requires vo == EmptyVO.(ctl := vo.ctl, act := vo.act) && Word(vo.ctl) && Word(vo.act)
    requires cfg.scriptName == vo.ctl + "." + vo.act
    ensures ToUrl(cfg, vo, false) == cfg.scriptName
    ensures var r := ParseRoute(cfg, "/" + ToUrl(cfg, vo, false));
      r.ctl == cfg.defaultCtl && r.act == cfg.defaultAct
      && (r == WithCtlClass(vo) <==> vo.ctl == cfg.defaultCtl && vo.act == cfg.defaultAct)
  {
    var w := cfg.scriptName;
    ScriptWritten(cfg, vo, w);
    EntryTextCut(cfg, "/" + w, w);
    ParseLaws.HomeRoute(cfg, "/" + w);
  }

  /** `toUrl` writes the record `ctl.act` without a module as `ctl.act`; that text is a one-segment name. */
  lemma ScriptWritten(cfg: Config, vo: RouteVO, w: string)
    requires cfg.rewrite && !cfg.encode && !cfg.fullUrl && cfg.rewriteExt == "" && cfg.alias == [] && cfg.domain == map[]
    requires vo == EmptyVO.(ctl := vo.ctl, act := vo.act) && Word(vo.ctl) && Word(vo.act)
    requires w == vo.ctl + "." + vo.act
    ensures ToUrl(cfg, vo, false) == w
    ensures Truthy(w) && '/' !in w && w[0] != '/' && w[|w| - 1] != '/'
  {
    ScriptRouteUri(vo, w);
    RelativeUrlText(cfg, vo, w);
  }

  /** The routing id of the record `ctl.act` without a module is `ctl.act`; it has no `/`. */
  lemma ScriptRouteUri(vo: RouteVO, w: string)
    requires vo.mod == "" && vo.actParams == [] && Word(vo.ctl) && Word(vo.act) && w == vo.ctl + "." + vo.act
    ensures RouteUri(vo) == w && Truthy(w) && '/' !in w && w[0] != '/' && w[|w| - 1] != '/'
  {
    IdChars(vo.ctl, vo.act, w);
    assert vo.mod + "." + vo.ctl + "." + vo.act == "." + w by {
      Regroup(vo.mod, vo.ctl, vo.act, "." + w, vo.mod + "." + vo.ctl + "." + vo.act);
    }
    DotTrimmed(w);
    assert |w| > 1;
  }

  /** A leading `.` is all that `trim` with `.` takes from `.w`. */
  lemma DotTrimmed(w: string)
    requires w != [] && w[0] != '.' && w[|w| - 1] != '.'
    ensures Trim("." + w, ".") == w
  {
    TrimLeftUnique("." + w, ".", w);
    TrimClean(w, ".");
  }

  /** The entry-script case with the default options and the record `index.php`: it comes back as the home route. */
  lemma IndexPhp(cfg: Config, vo: RouteVO)
    requires cfg == DefaultCfg
    requires vo == EmptyVO.(ctl := "index", act := "php")
    ensures ToUrl(cfg, vo, false) == "index.php"
    ensures var r := ParseRoute(cfg, "/" + ToUrl(cfg, vo, false));
      r.ctl == "default" && r.act == "index" && r != WithCtlClass(vo)
  {
    ScriptFields(cfg);
    IndexWords(vo.ctl, vo.act, cfg.scriptName);
    ScriptTextPrefix(cfg, vo);
  }

  /** The options of the entry-script example that `toUrl` and `parse` look at. */
  lemma ScriptFields(cfg: Config)
    requires cfg == DefaultCfg
    ensures !cfg.useModule && cfg.rewrite && !cfg.encode && !cfg.fullUrl && cfg.rewriteExt == ""
    ensures cfg.alias == [] && cfg.domain == map[] && Trim(cfg.basePath, "/") == "" && cfg.scriptName == "index.php"
    ensures cfg.defaultCtl == "default" && cfg.defaultAct == "index"
  {
  }

  lemma IndexWords(c: string, a: string, script: string)
    requires c == "index" && a == "php" && script == "index.php"
    ensures Word(c) && Word(a) && script == c + "." + a && c != "default"
  {
  }

  /** With no base path, the request `/` + the entry script's name is cleaned to nothing. */
  lemma EntryTextCut(cfg: Config, v: string, w: string)
    requires Trim(cfg.basePath, "/") == "" && w == cfg.scriptName && v == "/" + w
    requires Truthy(w) && '/' !in w && w[0] != '/' && w[|w| - 1] != '/'
    ensures NormalizePath(cfg, v) == ""
  {
    EntryHostsOff(cfg.basePath, v, w);
    EntryScriptOff(cfg.scriptName, w);
    CleanLaws.CleanedVia(cfg, v, w, "");
  }

  /** Lines 118-126 on `/w` with no base path: `w` is left. */
  lemma EntryHostsOff(basePath: string, v: string, w: string)
    requires Trim(basePath, "/") == "" && v == "/" + w
    requires w != [] && '/' !in w && w[0] != '/' && w[|w| - 1] != '/'
    ensures StripBasePath(basePath, Trim(StripHosts(v), "/")) == w
  {
    LeadingSlashOff(v, w);
  }

  /** Lines 132-135 on the entry script's own name: nothing is left. */
  lemma EntryScriptOff(scriptName: string, w: string)
    requires w == scriptName && Truthy(w)
    ensures Trim(StripScriptName(scriptName, w), "./?") == ""
  {
    assert w + "" == w;
    CleanLaws.StripScriptNameCut(w, "");
    TrimClean("", "./?");
  }

  /** Lines 118-121 on `/` + a one-segment `w`: only the `/` goes. */
  lemma LeadingSlashOff(v: string, w: string)
    requires v == "/" + w && w != [] && '/' !in w && w[0] != '/' && w[|w| - 1] != '/'
    ensures Trim(StripHosts(v), "/") == w
  {
    OneSegment(w);
    CleanLaws.NoDoubleSlashJoin("/", w);
    ParseLaws.StripHostsPlain(v);
    TrimLeftUnique(v, "/", w);
    TrimClean(w, "/");
  }

  // ---------------------------------------------------------------- shared steps

  /** A routing id without `/` at its ends is written as it is. */
  lemma RelativeUrlText(cfg: Config, vo: RouteVO, w: string)
    requires cfg.alias == [] && cfg.domain == map[] && !cfg.fullUrl && cfg.rewrite && !cfg.encode && cfg.rewriteExt == ""
    requires vo.actParams == [] && vo.attributes == [] && vo.query == "" && vo.anchor == ""
    requires RouteUri(vo) == w && w != [] && w[0] != '/' && w[|w| - 1] != '/'
    ensures ToUrl(cfg, vo, false) == w
  {
    TrimClean(w, "/");
    BuildLaws.RelativeUrl(cfg, w, [], "", "");
    assert w + "" == w;
  }

  /** A one-segment text: no `/`, so no `//` either. */
  lemma OneSegment(w: string)
    requires '/' !in w
    ensures ParseLaws.NoDoubleSlash(w) && StripHosts(w) == w
  {
    forall i | 0 < i < |w| ensures !(w[i - 1] == '/' && w[i] == '/') {
      assert w[i] in w;
    }
    ParseLaws.StripHostsPlain(w);
  }

  /** The characters of `id` = `m.c`: routing-id characters only, and the ends of `m` and `c`. */
  lemma IdChars(m: string, c: string, id: string)
    requires m != [] && c != [] && IsRouteId(m) && IsRouteId(c) && id == m + "." + c
    ensures IsRouteId(id) && '/' !in id && '#' !in id && '&' !in id && '?' !in id && ':' !in id
    ensures id[0] == m[0] && id[|id| - 1] == c[|c| - 1] && id[|m|] == '.' && '.' in id
  {
    forall i | 0 <= i < |id| ensures IsRouteIdChar(id[i]) {
      if i < |m| { assert id[i] == m[i]; } else if i > |m| { assert id[i] == c[i - |m| - 1]; }
    }
  }

  /** A request cleaned to the routing id `m.c` routes, with modules on, to the module `m` and the controller `c`. */
  lemma RoutedLeft(cfg: Config, w: string, m: string, c: string)
    requires cfg.useModule && cfg.alias == [] && !cfg.encode && cfg.rewriteExt == ""
    requires Word(m) && Word(c) && NormalizePath(cfg, w) == m + "." + c
    requires !(Truthy(Trim(cfg.basePath, "/")) && StartsWith(m + "." + c, Trim(cfg.basePath, "/")))
    requires !StartsWith(m + "." + c, cfg.scriptName)
    ensures var r := ParseRoute(cfg, w);
      r.mod == m && r.ctl == c && r.act == cfg.defaultAct
  {
    var id := m + "." + c;
    PlainId(cfg, m, c);
    CleanLaws.PlainFixed(cfg, id);
    CleanLaws.SameCleanPath(cfg, w, id);
    var split := SplitRouteId(true, id, InitialVO(cfg).(attributes := []));
    assert ParseRoute(cfg, id) == WithCtlClass(split.(actParams := [])) by {
      RoutedId(cfg, id);
    }
    ModuleController(m, c, InitialVO(cfg).(attributes := []));
  }

  /** The one-segment request `id` routes by its routing id: no parameters, no attributes. */
  lemma RoutedId(cfg: Config, id: string)
    requires cfg.useModule && IsRouteId(id) && '.' in id && ':' !in id && ParseLaws.PlainRequest(cfg, id)
    ensures ParseRoute(cfg, id) == WithCtlClass(SplitRouteId(true, id, InitialVO(cfg).(attributes := [])).(actParams := []))
  {
    ParseLaws.JoinOne([id], '/');
    assert [id] + [] == [id];
    assert Join([id] + [], '/') + AttrSuffix([]) == id;
    ParseLaws.RoutedRequest(cfg, id, [], []);
  }

  /** `m.c` is a request no cleaning step touches. */
  lemma PlainId(cfg: Config, m: string, c: string)
    requires cfg.alias == [] && !cfg.encode && cfg.rewriteExt == "" && Word(m) && Word(c)
    requires !(Truthy(Trim(cfg.basePath, "/")) && StartsWith(m + "." + c, Trim(cfg.basePath, "/")))
    requires !StartsWith(m + "." + c, cfg.scriptName)
    ensures IsRouteId(m + "." + c) && '.' in m + "." + c && ':' !in m + "." + c && ParseLaws.PlainRequest(cfg, m + "." + c)
  {
    IdChars(m, c, m + "." + c);
    PlainText(cfg, m + "." + c);
  }

  /** A one-segment text of routing-id characters, not starting or ending with `.`, that no prefix or suffix test matches. */
  lemma PlainText(cfg: Config, id: string)
    requires !cfg.encode && !Truthy(cfg.rewriteExt) && id != [] && IsRouteId(id) && id[0] != '.' && id[|id| - 1] != '.'
    requires '.' in id && '/' !in id && '#' !in id && '&' !in id && '?' !in id
    requires !(Truthy(Trim(cfg.basePath, "/")) && StartsWith(id, Trim(cfg.basePath, "/")))
    requires !StartsWith(id, cfg.scriptName)
    ensures Truthy(id) && ParseLaws.PlainRequest(cfg, id)
  {
    OneSegment(id);
    assert |id| > 1;
  }

  /** `m.c` with modules on is the module `m` and the controller `c`; the action is untouched. */
  lemma ModuleController(m: string, c: string, vo: RouteVO)
    requires Word(m) && Word(c)
    ensures var r := SplitRouteId(true, m + "." + c, vo);
      r.mod == m && r.ctl == c && r.act == vo.act
  {
    SplitConcat(m, c, '.');
    SplitNone(m, '.');
    SplitNone(c, '.');
    var parts := [m, c];
    assert parts[1..] == [c];
    ParseLaws.PartsOne(true, parts, vo, Lower(m), [c]);
    LowerOfLower(m);
    LowerOfLower(c);
  }
}
