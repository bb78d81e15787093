/**
 * The router object `wf\route\Simple` (lib/Simple.php): its configuration and the route record
 * it fills, and its methods as the PHP writes them, one step after another. Each method is proved
 * to compute what the functions of `ConfigSpec`, `ParseSpec` and `BuildSpec` describe.
 */
module Router {
  import opened Wrappers
  import opened Strings
  import opened PhpArray
  import Base64
  import opened RouteModel
  import ConfigSpec
  import ParseSpec
  import BuildSpec

  class Simple {
    /** `$cfg`, the options. */
    var cfg: Config
    /** `$vo`, the route record of the last `parse`. */
    var vo: RouteVO

    /** `new Simple()`: the declared defaults. The record is empty until a `parse`. */
    constructor ()
      ensures cfg == DefaultCfg && vo == EmptyVO
    {
      cfg := DefaultCfg;
      vo := EmptyVO;
    }

    /** `new Simple($cfg)`: the defaults, then `setCfg` when some option is given; a failure is the constructor's exception. */
    static method New(s: ConfigSpec.Settings) returns (r: Result<Simple, ConfigSpec.ConfigError>)
      ensures r.Success? ==> fresh(r.value) && r.value.vo == EmptyVO
      ensures r.Success? <==> ConfigSpec.DeriveCfg(DefaultCfg, s).Success?
      ensures r.Success? ==> r.value.cfg == ConfigSpec.DeriveCfg(DefaultCfg, s).value
    {
      var router := new Simple();
      if s != ConfigSpec.NoSettings {
        var outcome := router.SetCfg(s);
        if outcome.Fail? {
          return Failure(outcome.error);
        }
      } else {
        assert ConfigSpec.Override(DefaultCfg, s) == DefaultCfg;
      }
      return Success(router);
    }

    /**
     * `setCfg($cfg)`: `hostInfo` and `basePath` are taken from `siteUrl` when needed, then the
     * options replace the current ones. On the exception nothing changes.
     */
    method SetCfg(s: ConfigSpec.Settings) returns (r: Outcome<ConfigSpec.ConfigError>)
      modifies this`cfg
      ensures r.Fail? <==> ConfigSpec.DeriveCfg(old(cfg), s).Failure?
      ensures r.Pass? ==> cfg == ConfigSpec.DeriveCfg(old(cfg), s).value
      ensures r.Fail? ==> cfg == old(cfg)
    {
      var given := s;
      if ConfigSpec.DerivesFromSiteUrl(s) {
        var siteUrlMatch := ConfigSpec.SiteUrlParts(s.siteUrl.value);
        if siteUrlMatch.None? {
          return Fail(ConfigSpec.SiteUrlNotHttp);
        }
        given := given.(hostInfo := Some(siteUrlMatch.value.0), basePath := Some(siteUrlMatch.value.1));
      }
      cfg := ConfigSpec.Override(cfg, given);
      return Pass;
    }

    /** `initRouteVO()`: a fresh record with the default module (with modules on), controller and action. */
    method InitRouteVO()
      modifies this`vo
      ensures vo == InitialVO(cfg)
    {
      vo := EmptyVO;
      if cfg.useModule {
        vo := vo.(mod := cfg.defaultMod);
      }
      vo := vo.(ctl := cfg.defaultCtl);
      vo := vo.(act := cfg.defaultAct);
    }

    /** `buildVOCtlClass()`: the controller class of the record's module and controller; nothing else changes. */
    method BuildVOCtlClass()
      modifies this`vo
      ensures vo == old(vo).(ctlClass := CtlClass(old(vo).mod, old(vo).ctl))
    {
      var mod := vo.mod;
      var ctl := vo.ctl;
      var ns := if !Truthy(mod) then "\\app\\controller" else "\\app\\" + mod + "\\controller";
      var name;
      if IsNested(ctl) {
        var k := LastIndexOf(ctl, '.').value;
        name := ctl[k..];
        var subNS := ctl[..k];
        ns := ns + "\\" + Translate(subNS, ".", "\\");
      } else {
        name := ctl;
      }
      vo := vo.(ctlClass := ns + "\\" + Ucfirst(name) + "Controller");
    }
  
    /**
     * `parse($uri)`: the record it leaves is the route `ParseSpec.ParseRoute` describes; the
     * configuration is not touched. The phases of the PHP method are the methods below.
     */
    method Parse(uri: string)
      modifies this`vo
      ensures vo == ParseSpec.ParseRoute(cfg, uri)
    {
      InitRouteVO();
      var u := NormalizedPath(uri);
      if !Truthy(u) {
        ParseSpec.ParseRouteHome(cfg, uri);
        BuildVOCtlClass();
        return;
      }
      u := TakeAnchorAndQuery(u);
      u := DecodedPath(u);
      ParseSpec.ParseRouteSteps(cfg, uri, vo, u);
      RouteFromPath(u);
    }

    /** Lines 170-227 on a record that has no attributes yet: the attributes, the route and the class name. */
    method RouteFromPath(path: string)
      requires vo.attributes == []
      modifies this`vo
      ensures vo == ParseSpec.RouteOfPath(cfg, old(vo), path)
    {
      var u := TakeAttributes(path);
      TakeRoute(u);
      BuildVOCtlClass();
    }

    /** Lines 118-135: the host, the base path and the entry script removed, trimmed of `./?`. */
    method NormalizedPath(uri: string) returns (u: string)
      ensures u == ParseSpec.NormalizePath(cfg, uri)
    {
      u := ParseSpec.StripHosts(uri);
      u := Trim(u, "/");
      var basePath := Trim(cfg.basePath, "/");
      if Truthy(basePath) && StartsWith(u, basePath) {
        u := u[|basePath|..];
        u := Trim(u, "/");
      }
      if Truthy(u) && StartsWith(u, cfg.scriptName) {
        u := u[|cfg.scriptName|..];
      }
      u := Trim(u, "./?");
    }

    /** Lines 144-156: the fragment and the query go to the record; what is left is the path. */
    method TakeAnchorAndQuery(uri: string) returns (u: string)
      modifies this`vo
      ensures var p := ParseSpec.SplitAnchorQuery(uri);
        u == p.path && vo == old(vo).(anchor := p.anchor.GetOr(old(vo).anchor), query := p.query.GetOr(old(vo).query))
    {
      u := ReplaceChar(uri, '?', '&');
      var c1 := Cut(u, '#');
      if c1.1.Some? {
        vo := vo.(anchor := c1.1.value);
      }
      u := c1.0;
      var c2 := Cut(u, '&');
      if c2.1.Some? {
        vo := vo.(query := c2.1.value);
      }
      u := c2.0;
      ParseSpec.AnchorQueryCuts(uri, c1, c2);
    }

    /** Lines 159-167: the rewrite suffix cut off, then the encoded payload decoded. */
    method DecodedPath(path: string) returns (u: string)
      ensures u == ParseSpec.DecodePayload(cfg.encode, ParseSpec.StripRewriteExt(cfg.rewriteExt, path))
    {
      u := path;
      if Truthy(cfg.rewriteExt) && EndsWith(u, cfg.rewriteExt) {
        u := u[..|u| - |cfg.rewriteExt|];
      }
      if cfg.encode {
        var at := ParseSpec.FindPayloadFrom(u, 0);
        if at.Some? {
          u := Base64.UrlDecode(Line(u[at.value + 2..]));
        }
      }
    }

    /** Lines 170-178: the `/name:value` segments become the attributes and leave the path. */
    method TakeAttributes(path: string) returns (u: string)
      modifies this`vo
      ensures var (attributes, rest) := ParseSpec.ExtractAttributes(path);
        u == rest && vo == if ParseSpec.AttrScan(path).0 == [] then old(vo) else old(vo).(attributes := attributes)
    {
      u := path;
      var (pieces, rest) := ParseSpec.AttrScan(u);
      if pieces != [] {
        vo := vo.(attributes := ParseSpec.ParseStr(ReplaceChar(Join(pieces, '&'), ':', '=')));
        u := rest;
      }
    }

    /** Lines 181-223: the routing id, resolved through the aliases, and the action parameters. */
    method TakeRoute(path: string)
      modifies this`vo
      ensures vo == ParseSpec.ResolveRoute(cfg, old(vo), path)
    {
      var actArgs := Split(path, '/');
      if ParseSpec.IsRouteId(actArgs[0]) {
        var routeId;
        routeId, actArgs := ExpandedRoute(actArgs[0], actArgs[1..]);
        SplitRoute(routeId);
      }
      vo := vo.(actParams := actArgs);
    }

    /** Lines 188-201: a routing id without `.` replaced by its alias target, the parameters split again when the target has a `/`. */
    method ExpandedRoute(id: string, args: seq<string>) returns (routeId: string, actArgs: seq<string>)
      ensures (routeId, actArgs) == ParseSpec.ExpandAlias(cfg.alias, id, args)
    {
      routeId, actArgs := id, args;
      if '.' !in routeId {
        var routeKey := Lower(routeId);
        var target := Lookup(cfg.alias, routeKey);
        if target.Some? {
          routeId := target.value;
          if '/' in routeId {
            actArgs := Split(Join([routeId] + actArgs, '/'), '/');
            routeId := actArgs[0];
            actArgs := actArgs[1..];
          }
        }
      }
    }

    /** Lines 203-219: the module, the action and the controller taken from the routing id. */
    method SplitRoute(routeId: string)
      modifies this`vo
      ensures vo == ParseSpec.SplitRouteId(cfg.useModule, routeId, old(vo))
    {
      var routeArr := Split(routeId, '.');
      if cfg.useModule {
        vo := vo.(mod := Lower(routeArr[0]));
        routeArr := routeArr[1..];
      }
      if |routeArr| >= 2 {
        vo := vo.(act := Lower(routeArr[|routeArr| - 1]));
        routeArr := routeArr[..|routeArr| - 1];
      }
      if |routeArr| > 0 {
        vo := vo.(ctl := Lower(Join(routeArr, '.')));
      }
    }

    /** `toUrl($fullUrl)`: the URL of the current record. */
    method ToUrl(fullUrl: bool) returns (url: string)
      ensures url == BuildSpec.ToUrl(cfg, vo, fullUrl)
    {
      var uri := Trim(vo.mod + "." + vo.ctl + "." + vo.act, ".");
      if |vo.actParams| > 0 {
        uri := uri + "/" + Join(vo.actParams, '/');
      }
      url := BuildUrl(uri, vo.attributes, vo.query, vo.anchor, fullUrl);
    }

    /** `createUrl($uri, $vars, $fullUrl)`: the fragment and the query are split off and put back by `buildUrL`. */
    method CreateUrl(uri: string, vars: Pairs, fullUrl: bool) returns (url: string)
      ensures url == BuildSpec.CreateUrl(cfg, uri, vars, fullUrl)
    {
      var query := "";
      var fragment := "";
      var u := uri;
      var pos := IndexOf(u, '#');
      CutIndex(u, '#');
      if pos.Some? {
        fragment := u[pos.value + 1..];
        u := u[..pos.value];
      }
      assert u == Cut(uri, '#').0 && fragment == Cut(uri, '#').1.GetOr("");
      ghost var beforeHash := u;
      pos := IndexOf(u, '?');
      CutIndex(u, '?');
      if pos.Some? {
        query := u[pos.value + 1..];
        u := u[..pos.value];
      }
      assert u == Cut(beforeHash, '?').0 && query == Cut(beforeHash, '?').1.GetOr("");
      url := BuildUrl(u, vars, query, fragment, fullUrl);
    }

    /** `buildUrL($uri, $vars, $query, $fragment, $fullUrl)`; its phases are the methods below. */
    method BuildUrl(uri: string, vars: Pairs, query: string, fragment: string, fullUrl: bool) returns (url: string)
      ensures url == BuildSpec.BuildUrl(cfg, uri, vars, query, fragment, fullUrl)
    {
      url := Trim(uri, "/");
      var (mod, ctl) := BuildSpec.ModCtl(Lower(url));
      url := RelativeUrl(url, vars);
      url := PlaceOnHost(mod, ctl, url, fullUrl);
      if Truthy(query) {
        var pos := IndexOf(url, '?');
        url := url + (if pos.Some? && pos.value > 0 then "&" else "?") + query;
      }
      if Truthy(fragment) {
        url := url + "#" + fragment;
      }
    }

    /** Lines 299-324: alias, variables, encoding, rewrite suffix and entry script. */
    method RelativeUrl(uri: string, vars: Pairs) returns (url: string)
      ensures url == BuildSpec.BuildPath(cfg, uri, vars)
    {
      url := ShortenByAlias(uri);
      url := WithVariables(url, vars);
      url := EncodedUrl(url);
      url := url + cfg.rewriteExt;
      if !cfg.rewrite {
        url := cfg.scriptName + "?" + url;
      }
    }

    /** Lines 308-310: the variables appended as `/k:v` segments. */
    method WithVariables(path: string, vars: Pairs) returns (url: string)
      ensures url == path + BuildSpec.AttrSuffix(vars)
    {
      url := path;
      if |vars| > 0 {
        url := url + "/" + ReplaceChar(BuildSpec.BuildQuery(vars), '=', ':');
      }
    }

    /** Lines 313-316: the URL replaced by `q_` and its base64url form when encoding is on. */
    method EncodedUrl(path: string) returns (url: string)
      ensures url == if cfg.encode then BuildSpec.EncodePath(path) else path
    {
      url := path;
      if cfg.encode {
        url := "q_" + Translate(Base64.Encode(url), "+/", "-_");
        url := TrimRight(url, "=");
      }
    }

    /** Lines 326-340: the host a domain rule or the full-URL switch puts in front. */
    method PlaceOnHost(mod: string, ctl: string, path: string, fullUrl: bool) returns (url: string)
      ensures url == BuildSpec.ApplyDomain(cfg, mod, ctl, path, fullUrl)
    {
      url := path;
      var modAndCtl := Trim(mod + "." + ctl, ".");
      if Truthy(modAndCtl) && modAndCtl in cfg.domain {
        url := TrimRight(cfg.basePath, "/") + "/" + Trim(url, "/");
        url := TrimRight(cfg.domain[modAndCtl], "/") + "/" + Trim(url, "/");
      } else if Truthy(mod) && mod in cfg.domain {
        url := TrimRight(cfg.basePath, "/") + "/" + Trim(url, "/");
        url := TrimRight(cfg.domain[mod], "/") + "/" + Trim(url, "/");
      } else if fullUrl || cfg.fullUrl {
        url := TrimRight(cfg.basePath, "/") + "/" + Trim(url, "/");
        url := TrimRight(cfg.hostInfo, "/") + "/" + Trim(url, "/");
      }
    }

    /** Lines 299-305: the first alias rule the URL starts with is replaced by its short tag. */
    method ShortenByAlias(url0: string) returns (url: string)
      ensures url == BuildSpec.ContractAlias(cfg.alias, url0)
    {
      url := url0;
      var i := 0;
      while i < |cfg.alias|
        invariant 0 <= i <= |cfg.alias|
        invariant url == url0
        invariant BuildSpec.ContractAlias(cfg.alias, url0) == BuildSpec.ContractAlias(cfg.alias[i..], url0)
      {
        var (shortTag, rule) := cfg.alias[i];
        rule := Trim(rule, "/");
        if StartsWith(Lower(url + "/"), Lower(rule + "/")) {
          url := shortTag + url[|rule|..];
          break;
        }
        assert cfg.alias[i..][1..] == cfg.alias[i + 1..];
        i := i + 1;
      }
    }
  }
}
