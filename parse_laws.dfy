/**
 * What `Simple::parse` (lib/Simple.php:111-228) promises: the home route, the plain request that
 * every cleaning step leaves alone, the routing id and its alias, and the encoded payload.
 */
module ParseLaws {
  import opened Wrappers
  import opened Strings
  import opened PhpArray
  import Base64
  import opened RouteModel
  import opened ParseSpec
  import opened BuildSpec
  import opened AttrLaws
  import RouteLaws

  // ---------------------------------------------------------------- the home route

  /**
   * Lines 137-141: a URI that is empty once cleaned leaves the record of `initRouteVO` — the
   * defaults, the module only with modules on — with the class name of that record.
   */
  lemma HomeRoute(cfg: Config, uri: string)
    requires !Truthy(NormalizePath(cfg, uri))
    ensures var vo := ParseRoute(cfg, uri);
      vo.mod == (if cfg.useModule then cfg.defaultMod else "") && vo.ctl == cfg.defaultCtl && vo.act == cfg.defaultAct
      && vo.actParams == [] && vo.attributes == [] && vo.query == "" && vo.anchor == ""
      && vo.ctlClass == CtlClass(vo.mod, vo.ctl)
  {
  }

  /** The configuration of the examples: the defaults with modules on. */
  const ModuleCfg: Config := DefaultCfg.(useModule := true)

  /** The empty request is the home page: the default module, controller and action. */
  lemma EmptyRequestIsHome(cfg: Config)
    requires cfg == ModuleCfg
    ensures var vo := ParseRoute(cfg, "");
      vo.mod == "common" && vo.ctl == "default" && vo.act == "index" && vo.actParams == []
      && vo.ctlClass == "\\app\\common\\controller" + "\\" + ("Default" + "Controller")
  {
    assert NormalizePath(cfg, "") == "";
    RouteLaws.ModuleClass("common", "default");
  }

  /** With modules off the home page has no module and its class is global. */
  lemma EmptyRequestWithoutModules(cfg: Config)
    requires cfg == DefaultCfg
    ensures var vo := ParseRoute(cfg, "");
      vo.mod == "" && vo.ctlClass == "\\app\\controller" + "\\" + ("Default" + "Controller")
  {
    assert NormalizePath(cfg, "") == "";
    RouteLaws.GlobalClass("default");
  }

  // ---------------------------------------------------------------- requests no cleaning step touches

  /** No `//` in `s`: no `http://` or `https://` can start anywhere in it. */
  predicate NoDoubleSlash(s: string) {
    forall i :: 0 < i < |s| ==> !(s[i - 1] == '/' && s[i] == '/')
  }

  /** Line 118 removes nothing from a URI without `//`. */
  lemma {:induction false} StripHostsPlain(s: string)
    requires NoDoubleSlash(s)
    ensures StripHosts(s) == s
    decreases |s|
  {
    if s != [] {
      assert |s| >= 7 ==> !(s[5] == '/' && s[6] == '/');
      assert |s| >= 8 ==> !(s[6] == '/' && s[7] == '/');
      assert !StartsWith(s, "http://") && !StartsWith(s, "https://") by {
        if |s| >= 7 { assert s[..7][5] == s[5] && s[..7][6] == s[6]; }
        if |s| >= 8 { assert s[..8][6] == s[6] && s[..8][7] == s[7]; }
      }
      assert HostMatchLen(s).None?;
      assert NoDoubleSlash(s[1..]) by {
        forall i | 0 < i < |s[1..]| ensures !(s[1..][i - 1] == '/' && s[1..][i] == '/') {
          assert s[1..][i - 1] == s[i] && s[1..][i] == s[i + 1];
        }
      }
      StripHostsPlain(s[1..]);
    }
  }

  /**
   * A request path that every cleaning step of lines 118-167 leaves as it is: no host, no base
   * path, no entry script, nothing to trim, no fragment or query, no rewrite suffix and no payload.
   */
  predicate PlainRequest(cfg: Config, u: string) {
    Truthy(u) && NoDoubleSlash(u) && '#' !in u && '&' !in u && '?' !in u
    && u[0] != '.' && u[0] != '/' && u[|u| - 1] != '.' && u[|u| - 1] != '/'
    && !(Truthy(Trim(cfg.basePath, "/")) && StartsWith(u, Trim(cfg.basePath, "/")))
    && !StartsWith(u, cfg.scriptName)
    && !(Truthy(cfg.rewriteExt) && EndsWith(u, cfg.rewriteExt))
    && (cfg.encode ==> FindPayloadFrom(u, 0).None?)
  }

  /** Without a `q` there is no payload to find. */
  lemma NoPayload(s: string)
    requires 'q' !in s
    ensures FindPayloadFrom(s, 0).None?
  {
    forall j | 0 <= j < |s| ensures !PayloadAt(s, j) {
      assert s[j] != 'q';
    }
  }

  /** A URI with none of the characters the cleaning steps touch, on a root base path, is plain. */
  lemma PlainUri(cfg: Config, u: string)
    requires cfg.basePath == "" && cfg.rewriteExt == "" && cfg.scriptName != []
    requires u != [] && u[0] != cfg.scriptName[0] && u[0] != '.' && u[0] != '/' && u[|u| - 1] != '.' && u[|u| - 1] != '/' && u != "0"
    requires NoDoubleSlash(u) && '#' !in u && '&' !in u && '?' !in u && (cfg.encode ==> 'q' !in u)
    ensures PlainRequest(cfg, u)
  {
    if cfg.encode {
      NoPayload(u);
    }
    assert Trim(cfg.basePath, "/") == "";
    assert !StartsWith(u, cfg.scriptName);
  }

  /**
   * A URI the cleaning of lines 118-135 leaves as it is, with no query and no fragment, is routed
   * by what its suffix and payload handling (lines 159-167) make of it.
   */
  lemma CleanParse(cfg: Config, u: string, path: string)
    requires Truthy(u) && NormalizePath(cfg, u) == u && SplitAnchorQuery(u) == Pieces(u, None, None)
    requires DecodePayload(cfg.encode, StripRewriteExt(cfg.rewriteExt, u)) == path
    ensures ParseRoute(cfg, u) == RouteOfPath(cfg, InitialVO(cfg), path)
  {
    assert InitialVO(cfg).(anchor := "", query := "") == InitialVO(cfg);
  }

  /** Neither trim of the cleaning steps touches a path whose ends are none of `.`, `/` and `?`. */
  lemma PlainTrim(u: string)
    requires u != [] && u[0] != '.' && u[0] != '/' && u[|u| - 1] != '.' && u[|u| - 1] != '/' && '?' !in u
    ensures Trim(u, "/") == u && Trim(u, "./?") == u
  {
    var cs := "./?";
    assert u[0] != '?' && u[|u| - 1] != '?';
    assert u[0] !in cs && u[|u| - 1] !in cs;
    TrimClean(u, cs);
    TrimClean(u, "/");
  }

  /** Such a path goes straight to the attributes and the routing id (lines 170-227). */
  lemma PlainParse(cfg: Config, u: string)
    requires PlainRequest(cfg, u)
    ensures ParseRoute(cfg, u) == RouteOfPath(cfg, InitialVO(cfg), u)
  {
    assert NormalizePath(cfg, u) == u by {
      StripHostsPlain(u);
      PlainTrim(u);
    }
    assert SplitAnchorQuery(u) == Pieces(u, None, None) by {
      ReplaceAbsent(u, '?', '&');
      assert Cut(u, '#') == (u, None) && Cut(u, '&') == (u, None);
    }
    CleanParse(cfg, u, u);
  }

  // ---------------------------------------------------------------- the routing id

  /** A routing id is made of `[A-Za-z0-9_.]`: it holds no `/`. */
  lemma RouteIdHasNoSlash(id: string)
    requires IsRouteId(id)
    ensures '/' !in id
  {
    forall i | 0 <= i < |id| ensures id[i] != '/' {
      assert IsRouteIdChar(id[i]);
    }
  }

  /**
   * Lines 203-219 on an id of `.`-free components: with modules on the first is the module; of
   * what is left, the last is the action when at least two are left, and the others joined with
   * `.` are the controller; every name is lower-cased, and a missing one keeps its value.
   */
  lemma RouteIdParts(useModule: bool, parts: seq<string>, rest: seq<string>, vo: RouteVO)
    requires |parts| >= 1 && forall i :: 0 <= i < |parts| ==> '.' !in parts[i]
    requires rest == if useModule then parts[1..] else parts
    ensures SplitRouteId(useModule, Join(parts, '.'), vo).mod == if useModule then Lower(parts[0]) else vo.mod
    ensures |rest| >= 2 ==>
      SplitRouteId(useModule, Join(parts, '.'), vo).act == Lower(rest[|rest| - 1])
      && SplitRouteId(useModule, Join(parts, '.'), vo).ctl == Lower(Join(rest[..|rest| - 1], '.'))
    ensures |rest| == 1 ==>
      SplitRouteId(useModule, Join(parts, '.'), vo).act == vo.act
      && SplitRouteId(useModule, Join(parts, '.'), vo).ctl == Lower(rest[0])
    ensures rest == [] ==>
      SplitRouteId(useModule, Join(parts, '.'), vo).act == vo.act
      && SplitRouteId(useModule, Join(parts, '.'), vo).ctl == vo.ctl
    ensures var r := SplitRouteId(useModule, Join(parts, '.'), vo); r == vo.(mod := r.mod, ctl := r.ctl, act := r.act)
  {
    SplitJoin(parts, '.');
    var mod := if useModule then Lower(parts[0]) else vo.mod;
    if |rest| >= 2 {
      PartsLong(useModule, parts, vo, mod, rest);
    } else if |rest| == 1 {
      JoinOne(rest, '.');
      PartsOne(useModule, parts, vo, mod, rest);
    } else {
      PartsNone(useModule, parts, vo, mod, rest);
    }
  }

  lemma JoinOne(parts: seq<string>, d: char)
    requires |parts| == 1
    ensures Join(parts, d) == parts[0]
  {
  }

  lemma PartsLong(useModule: bool, parts: seq<string>, vo: RouteVO, mod: string, rest: seq<string>)
    requires |parts| >= 1 && mod == (if useModule then Lower(parts[0]) else vo.mod)
    requires rest == (if useModule then parts[1..] else parts) && |rest| >= 2
    ensures RouteOfParts(useModule, parts, vo)
      == vo.(mod := mod, ctl := Lower(Join(rest[..|rest| - 1], '.')), act := Lower(rest[|rest| - 1]))
  {
  }

  lemma PartsOne(useModule: bool, parts: seq<string>, vo: RouteVO, mod: string, rest: seq<string>)
    requires |parts| >= 1 && mod == (if useModule then Lower(parts[0]) else vo.mod)
    requires rest == (if useModule then parts[1..] else parts) && |rest| == 1 && Join(rest, '.') == rest[0]
    ensures RouteOfParts(useModule, parts, vo) == vo.(mod := mod, ctl := Lower(rest[0]))
  {
  }

  lemma PartsNone(useModule: bool, parts: seq<string>, vo: RouteVO, mod: string, rest: seq<string>)
    requires |parts| >= 1 && mod == (if useModule then Lower(parts[0]) else vo.mod)
    requires rest == (if useModule then parts[1..] else parts) && rest == []
    ensures RouteOfParts(useModule, parts, vo) == vo.(mod := mod)
  {
  }

  /** Three `.`-free components joined with `.` split back into the three. */
  lemma SplitThree(m: string, c: string, a: string)
    requires '.' !in m && '.' !in c && '.' !in a
    ensures Split(m + "." + c + "." + a, '.') == [m, c, a]
  {
    SplitConcat(m, c, '.');
    SplitConcat(m + "." + c, a, '.');
    SplitNone(m, '.');
    SplitNone(c, '.');
    SplitNone(a, '.');
  }

  /** `m.c.a` with modules on is the module `m`, the controller `c` and the action `a`, lower-cased. */
  lemma ModuleControllerAction(m: string, c: string, a: string, vo: RouteVO)
    requires '.' !in m && '.' !in c && '.' !in a
    ensures var r := SplitRouteId(true, m + "." + c + "." + a, vo);
      r.mod == Lower(m) && r.ctl == Lower(c) && r.act == Lower(a)
  {
    SplitThree(m, c, a);
    var arr := [m, c, a];
    assert arr[1..] == [c, a] && [c, a][..1] == [c];
  }

  /** `c.a` with modules off is the controller `c` and the action `a`; the module is untouched. */
  lemma ControllerAction(c: string, a: string, vo: RouteVO)
    requires '.' !in c && '.' !in a
    ensures var r := SplitRouteId(false, c + "." + a, vo);
      r.mod == vo.mod && r.ctl == Lower(c) && r.act == Lower(a)
  {
    SplitConcat(c, a, '.');
    SplitNone(c, '.');
    SplitNone(a, '.');
    assert [c, a][..1] == [c];
  }

  /**
   * Lines 180-223 when the first segment is a routing id with a `.` (so no alias applies): the
   * id gives mod, ctl and act, and the other segments are the action parameters.
   */
  lemma RouteParams(cfg: Config, vo: RouteVO, id: string, params: seq<string>)
    requires IsRouteId(id) && '.' in id
    requires forall i :: 0 <= i < |params| ==> '/' !in params[i]
    ensures ResolveRoute(cfg, vo, Join([id] + params, '/')) == SplitRouteId(cfg.useModule, id, vo).(actParams := params)
  {
    RouteIdHasNoSlash(id);
    ConsSegments(id, params);
  }

  /** Separator-free segments joined with `/` split back into themselves. */
  lemma SplitSegments(segs: seq<string>)
    requires |segs| >= 1 && forall i :: 0 <= i < |segs| ==> '/' !in segs[i]
    ensures Split(Join(segs, '/'), '/') == segs
  {
    SplitJoin(segs, '/');
  }

  /** A separator-free head in front of separator-free segments: the split gives them back. */
  lemma ConsSegments(h: string, params: seq<string>)
    requires '/' !in h && forall i :: 0 <= i < |params| ==> '/' !in params[i]
    ensures Split(Join([h] + params, '/'), '/') == [h] + params
    ensures ([h] + params)[0] == h && ([h] + params)[1..] == params
  {
    var segs := [h] + params;
    forall i | 0 <= i < |segs| ensures '/' !in segs[i] {
      if i > 0 {
        assert segs[i] == params[i - 1];
      }
    }
    assert segs[1..] == params;
    SplitSegments(segs);
  }

  /** When the first segment is not a routing id, every segment is a parameter and mod, ctl, act stay. */
  lemma NotARouteId(cfg: Config, vo: RouteVO, segs: seq<string>)
    requires |segs| >= 1 && forall i :: 0 <= i < |segs| ==> '/' !in segs[i]
    requires !IsRouteId(segs[0])
    ensures ResolveRoute(cfg, vo, Join(segs, '/')) == vo.(actParams := segs)
  {
    SplitSegments(segs);
  }

  // ---------------------------------------------------------------- aliases

  /** A `/`-joined list whose head is `t`: its first `/`-piece is that of `t`. */
  lemma HeadPiece(t: string, params: seq<string>)
    ensures Split(Join([t] + params, '/'), '/')[0] == Split(t, '/')[0]
  {
    if params != [] {
      assert ([t] + params)[1..] == params;
      assert Join([t] + params, '/') == t + ['/'] + Join(params, '/');
      SplitConcat(t, Join(params, '/'), '/');
    }
  }

  /** `ResolveRoute` on a path whose segments are known and whose head is a routing id. */
  lemma ResolveAt(cfg: Config, vo: RouteVO, u: string, args: seq<string>)
    requires Split(u, '/') == args && IsRouteId(args[0])
    ensures var e := ExpandAlias(cfg.alias, args[0], args[1..]);
      ResolveRoute(cfg, vo, u) == SplitRouteId(cfg.useModule, e.0, vo).(actParams := e.1)
  {
  }

  /**
   * Lines 193-199: a tag found in the table is replaced by its expansion; the parameters that
   * follow are those of the expansion put in front of the old ones.
   */
  lemma AliasTarget(alias: Pairs, tag: string, target: string, params: seq<string>)
    requires '.' !in tag && Lookup(alias, Lower(tag)) == Some(target)
    requires forall i :: 0 <= i < |params| ==> '/' !in params[i]
    ensures var parts := Split(Join([target] + params, '/'), '/');
      ExpandAlias(alias, tag, params) == (parts[0], parts[1..])
  {
    if '/' !in target {
      SplitNone(target, '/');
      ConsSegments(target, params);
    }
  }

  /**
   * Lines 187-201: a short routing id — no `.`, an entry of the alias table under its lower-case
   * form — routes exactly as the expansion written in its place, when the expansion begins with a
   * routing id that has a `.`.
   */
  lemma AliasExpands(cfg: Config, vo: RouteVO, tag: string, target: string, params: seq<string>)
    requires IsRouteId(tag) && '.' !in tag && Lookup(cfg.alias, Lower(tag)) == Some(target)
    requires forall i :: 0 <= i < |params| ==> '/' !in params[i]
    requires IsRouteId(Split(target, '/')[0]) && '.' in Split(target, '/')[0]
    ensures ResolveRoute(cfg, vo, Join([tag] + params, '/')) == ResolveRoute(cfg, vo, Join([target] + params, '/'))
  {
    var u1, u2 := Join([tag] + params, '/'), Join([target] + params, '/');
    var parts := Split(u2, '/');
    RouteIdHasNoSlash(tag);
    ConsSegments(tag, params);
    ResolveAt(cfg, vo, u1, [tag] + params);
    AliasTarget(cfg.alias, tag, target, params);
    HeadPiece(target, params);
    assert ExpandAlias(cfg.alias, parts[0], parts[1..]) == (parts[0], parts[1..]);
    ResolveAt(cfg, vo, u2, parts);
  }

  // ---------------------------------------------------------------- the encoded payload

  /** A string without newlines is its own first line. */
  lemma WholeLine(s: string)
    requires '\n' !in s
    ensures Line(s) == s
  {
    LineUnique(s, s);
  }

  /** The encoded text of a non-empty path is not empty, and holds no newline. */
  lemma EncodedShape(p: string)
    requires p != []
    ensures var e := Base64.UrlEncode(p); e != [] && '\n' !in e && e[0] != '\n'
  {
    var e := Base64.UrlEncode(p);
    assert |Base64.BytesOf(p)| >= 1;
    forall i | 0 <= i < |e| ensures e[i] != '\n' {
      assert Base64.IsUrlSafeChar(e[i]);
    }
  }

  /**
   * Lines 164-167 after lines 312-316: with `encode` on, a path the router encoded decodes back to
   * that path, when it is not empty and its characters are bytes.
   */
  lemma PayloadRoundTrip(p: string)
    requires p != [] && Base64.IsByteString(p)
    ensures DecodePayload(true, EncodePath(p)) == p
  {
    var none: string := [];
    assert none + EncodePath(p) == EncodePath(p);
    PayloadAnywhere(none, p);
  }

  /**
   * Line 164 looks for `q_` anywhere: text in front of the payload is dropped, not kept, and the
   * payload alone is decoded.
   */
  lemma PayloadAnywhere(pre: string, p: string)
    requires 'q' !in pre && p != [] && Base64.IsByteString(p)
    ensures DecodePayload(true, pre + EncodePath(p)) == p
  {
    var e := Base64.UrlEncode(p);
    var s := pre + EncodePath(p);
    EncodedShape(p);
    assert s == pre + "q_" + e;
    assert PayloadAt(s, |pre|);
    var at := FindPayloadFrom(s, 0);
    forall j | 0 <= j < |pre| ensures !PayloadAt(s, j) {
      assert s[j] == pre[j];
    }
    assert at == Some(|pre|);
    assert s[|pre| + 2..] == e;
    WholeLine(e);
    Base64.UrlDecodeEncode(p);
  }

  /** The encoded home path is `q_` alone, which has no payload: it stays `q_`. */
  lemma EncodedEmptyPath()
    ensures EncodePath("") == "q_"
    ensures DecodePayload(true, "q_") == "q_"
  {
    assert Base64.UrlEncode("") == [];
  }

  // ---------------------------------------------------------------- whole requests

  /**
   * A plain request `id/p1/.../pn/k1:v1/...`: the attributes come off the end, the routing id
   * gives mod, ctl and act, the segments between are the parameters, and the class follows.
   */
  lemma RoutedRequest(cfg: Config, id: string, params: seq<string>, vars: Pairs)
    requires IsRouteId(id) && '.' in id
    requires forall i :: 0 <= i < |params| ==> '/' !in params[i]
    requires ':' !in Join([id] + params, '/') && PlainVars(vars)
    requires PlainRequest(cfg, Join([id] + params, '/') + AttrSuffix(vars))
    ensures ParseRoute(cfg, Join([id] + params, '/') + AttrSuffix(vars))
      == WithCtlClass(SplitRouteId(cfg.useModule, id, InitialVO(cfg).(attributes := vars)).(actParams := params))
  {
    var path := Join([id] + params, '/');
    PlainParse(cfg, path + AttrSuffix(vars));
    if vars == [] {
      assert path + AttrSuffix(vars) == path;
      ExtractNoAttributes(path);
    } else {
      ExtractAttrSuffix(path, vars);
    }
    RouteParams(cfg, InitialVO(cfg).(attributes := vars), id, params);
  }

  /** The one attribute `sort` = `desc` is written `/sort:desc`. */
  lemma SortDesc(vars: Pairs, k: string, v: string)
    requires k == "sort" && v == "desc" && vars == [(k, v)]
    ensures AttrSuffix(vars) == "/" + k + ":" + v && PlainVars(vars)
  {
    SortDescChars(k, v);
    OneVar(vars, k, v);
  }

  /** The characters of the example's variable. */
  lemma SortDescChars(k: string, v: string)
    requires k == "sort" && v == "desc"
    ensures AttrLaws.PlainVar((k, v)) && k != "" && '=' !in v
  {
  }

  /** One plain variable `k => v` is the segment `/k:v`. */
  lemma OneVar(vars: Pairs, k: string, v: string)
    requires vars == [(k, v)] && AttrLaws.PlainVar((k, v)) && '=' !in v
    ensures AttrSuffix(vars) == "/" + k + ":" + v && PlainVars(vars)
  {
    assert BuildQuery(vars) == k + ("=" + v);
    OneVarText(k, v);
    OneVarPlain(vars, k, v);
  }

  /** `k=v` with `=` replaced by `:`, when neither `k` nor `v` holds a `=`. */
  lemma OneVarText(k: string, v: string)
    requires '=' !in k && '=' !in v
    ensures ReplaceChar(k + ("=" + v), '=', ':') == k + (":" + v)
  {
    ReplaceAppend(k, "=" + v, '=', ':');
    ReplaceAppend("=", v, '=', ':');
    ReplaceAbsent(k, '=', ':');
    ReplaceAbsent(v, '=', ':');
    assert ReplaceChar("=", '=', ':') == ":";
  }

  /** One plain variable is a plain list of variables. */
  lemma OneVarPlain(vars: Pairs, k: string, v: string)
    requires vars == [(k, v)] && AttrLaws.PlainVar((k, v))
    ensures PlainVars(vars)
  {
    assert vars[0] == (k, v);
  }

  /** The request of the blog example has no `//` and none of `#`, `&`, `?`. */
  lemma BlogRequestChars(uri: string)
    requires uri == "blog.post.view/5/sort:desc"
    ensures NoDoubleSlash(uri) && '#' !in uri && '&' !in uri && '?' !in uri
  {
  }

  /** The request of the blog example meets every condition of a plain request. */
  lemma BlogRequestPlain(cfg: Config, uri: string)
    requires cfg == ModuleCfg && uri == "blog.post.view/5/sort:desc"
    ensures PlainRequest(cfg, uri)
  {
    BlogRequestChars(uri);
    BlogRequestEnds(uri);
    ModuleCfgFields(cfg);
    PlainUri(cfg, uri);
  }

  /** The first and the last character of the blog example. */
  lemma BlogRequestEnds(uri: string)
    requires uri == "blog.post.view/5/sort:desc"
    ensures uri != [] && uri[0] == 'b' && uri[|uri| - 1] == 'c' && uri != "0"
  {
  }

  /** The options of the example configuration that the cleaning steps look at. */
  lemma ModuleCfgFields(cfg: Config)
    requires cfg == ModuleCfg
    ensures cfg.basePath == "" && cfg.rewriteExt == "" && !cfg.encode && cfg.scriptName != [] && cfg.scriptName[0] == 'i'
  {
  }

  /** The request of the blog example is its routing id, its parameter and its attribute. */
  lemma BlogRequestShape(uri: string, m: string, c: string, a: string, n: string, k: string, v: string)
    requires uri == "blog.post.view/5/sort:desc"
    requires m == "blog" && c == "post" && a == "view" && n == "5" && k == "sort" && v == "desc"
    ensures var id := m + "." + c + "." + a;
      uri == Join([id] + [n], '/') + ("/" + k + ":" + v)
      && IsRouteId(id) && '.' in id && '/' !in n && ':' !in Join([id] + [n], '/')
      && '.' !in m && '.' !in c && '.' !in a
  {
    var id := m + "." + c + "." + a;
    assert ([id] + [n])[1..] == [n];
    assert Join([id] + [n], '/') == id + "/" + n;
  }

  /** The names of the blog example are already lower-case. */
  lemma BlogLowerCase(m: string, c: string, a: string)
    requires m == "blog" && c == "post" && a == "view"
    ensures Lower(m) == m && Lower(c) == c && Lower(a) == a
  {
    LowerOfLower(m);
    LowerOfLower(c);
    LowerOfLower(a);
  }

  /**
   * With modules on, a plain request `m.c.a/n/attributes` is the module `m`, the controller `c`,
   * the action `a` (lower-cased), the one parameter `n` and the attributes.
   */
  lemma ModuleRequest(cfg: Config, uri: string, m: string, c: string, a: string, n: string, vars: Pairs)
    requires cfg.useModule && '.' !in m && '.' !in c && '.' !in a && '/' !in n
    requires IsRouteId(m + "." + c + "." + a) && ':' !in Join([m + "." + c + "." + a] + [n], '/')
    requires vars != [] && PlainVars(vars)
    requires uri == Join([m + "." + c + "." + a] + [n], '/') + AttrSuffix(vars) && PlainRequest(cfg, uri)
    ensures var vo := ParseRoute(cfg, uri);
      vo.mod == Lower(m) && vo.ctl == Lower(c) && vo.act == Lower(a) && vo.actParams == [n]
      && vo.attributes == vars && vo.ctlClass == CtlClass(vo.mod, vo.ctl)
  {
    var id := m + "." + c + "." + a;
    assert id[|m|] == '.';
    RoutedRequest(cfg, id, [n], vars);
    ModuleControllerAction(m, c, a, InitialVO(cfg).(attributes := vars));
  }

  /**
   * With modules on, `blog.post.view/5/sort:desc` is the module `blog`, the controller `post`, the
   * action `view`, the parameter `5` and the attribute `sort` = `desc`.
   */
  lemma BlogPostView(cfg: Config, uri: string)
    requires cfg == ModuleCfg && uri == "blog.post.view/5/sort:desc"
    ensures var vo := ParseRoute(cfg, uri);
      vo.mod == "blog" && vo.ctl == "post" && vo.act == "view" && vo.actParams == ["5"]
      && vo.attributes == [("sort", "desc")]
      && vo.ctlClass == "\\app\\blog\\controller" + "\\" + ("Post" + "Controller")
  {
    SortDesc([("sort", "desc")], "sort", "desc");
    BlogRequestShape(uri, "blog", "post", "view", "5", "sort", "desc");
    BlogRequestPlain(cfg, uri);
    ModuleRequest(cfg, uri, "blog", "post", "view", "5", [("sort", "desc")]);
    BlogLowerCase("blog", "post", "view");
    RouteLaws.BlogPostClass("blog", "post");
  }

  /**
   * A plain request that starts with an alias routes as the same request with the expansion
   * written out, attributes and all (lines 187-201 inside the whole of `parse`).
   */
  lemma ParseAlias(cfg: Config, tag: string, target: string, params: seq<string>)
    requires IsRouteId(tag) && '.' !in tag && Lookup(cfg.alias, Lower(tag)) == Some(target)
    requires forall i :: 0 <= i < |params| ==> '/' !in params[i]
    requires IsRouteId(target) && '.' in target && '/' !in target
    requires ':' !in Join([tag] + params, '/') && PlainRequest(cfg, Join([tag] + params, '/'))
    requires ':' !in Join([target] + params, '/') && PlainRequest(cfg, Join([target] + params, '/'))
    ensures ParseRoute(cfg, Join([tag] + params, '/')) == ParseRoute(cfg, Join([target] + params, '/'))
  {
    var u1, u2 := Join([tag] + params, '/'), Join([target] + params, '/');
    PlainParse(cfg, u1);
    PlainParse(cfg, u2);
    ExtractNoAttributes(u1);
    ExtractNoAttributes(u2);
    SplitNone(target, '/');
    AliasExpands(cfg, InitialVO(cfg), tag, target, params);
  }

  /** The two requests of the alias example, and what the alias lemma needs of them. */
  lemma AliasRequests(alias: Pairs, tag: string, target: string, n: string)
    requires alias == [("b", "blog.post.view")] && tag == "b" && target == "blog.post.view" && n == "5"
    ensures IsRouteId(tag) && '.' !in tag && Lookup(alias, Lower(tag)) == Some(target)
    ensures IsRouteId(target) && '.' in target && '/' !in target && '/' !in n
  {
    assert target[4] == '.';
  }

  /** `tag/n` is one segment, a `/` and one more: what `Join` makes of two pieces. */
  lemma JoinTwo(tag: string, n: string)
    ensures Join([tag] + [n], '/') == tag + "/" + n
  {
    assert ([tag] + [n])[1..] == [n];
  }

  /** The two requests of the alias example are the tag and the target, each followed by `/5`. */
  lemma AliasUris(u1: string, u2: string, tag: string, target: string, n: string)
    requires u1 == "b/5" && u2 == "blog.post.view/5" && tag == "b" && target == "blog.post.view" && n == "5"
    ensures u1 == tag + "/" + n && u2 == target + "/" + n
  {
  }

  /** The characters of `b/5` the cleaning steps look at. */
  lemma ShortUriChars(u: string)
    requires u == "b/5"
    ensures u != [] && u[0] == 'b' && u[|u| - 1] == '5' && u != "0" && ':' !in u
    ensures NoDoubleSlash(u) && '#' !in u && '&' !in u && '?' !in u
  {
  }

  /** The characters of `blog.post.view/5` the cleaning steps look at. */
  lemma LongUriChars(u: string)
    requires u == "blog.post.view/5"
    ensures u != [] && u[0] == 'b' && u[|u| - 1] == '5' && u != "0" && ':' !in u
    ensures NoDoubleSlash(u) && '#' !in u && '&' !in u && '?' !in u
  {
  }

  /** A one-parameter alias request parses as the same request with the target written out. */
  lemma AliasWithParam(cfg: Config, tag: string, target: string, n: string)
    requires IsRouteId(tag) && '.' !in tag && Lookup(cfg.alias, Lower(tag)) == Some(target)
    requires IsRouteId(target) && '.' in target && '/' !in target && '/' !in n
    requires ':' !in tag + "/" + n && PlainRequest(cfg, tag + "/" + n)
    requires ':' !in target + "/" + n && PlainRequest(cfg, target + "/" + n)
    ensures ParseRoute(cfg, tag + "/" + n) == ParseRoute(cfg, target + "/" + n)
  {
    JoinTwo(tag, n);
    JoinTwo(target, n);
    ParseAlias(cfg, tag, target, [n]);
  }

  /**
   * With `b` standing for `blog.post.view`, `b/5` parses as `blog.post.view/5`, on the entry
   * script `index.php` and a root base path.
   */
  lemma ShortAliasParse(cfg: Config, u1: string, u2: string)
    requires cfg.alias == [("b", "blog.post.view")] && !cfg.encode
    requires cfg.scriptName == "index.php" && cfg.basePath == "" && cfg.rewriteExt == ""
    requires u1 == "b/5" && u2 == "blog.post.view/5"
    ensures ParseRoute(cfg, u1) == ParseRoute(cfg, u2)
  {
    var tag, target, n := "b", "blog.post.view", "5";
    AliasRequests(cfg.alias, tag, target, n);
    AliasUris(u1, u2, tag, target, n);
    ShortUriChars(u1);
    LongUriChars(u2);
    assert cfg.scriptName[0] == 'i';
    PlainUri(cfg, u1);
    PlainUri(cfg, u2);
    AliasWithParam(cfg, tag, target, n);
  }
}
