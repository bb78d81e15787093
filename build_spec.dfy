/**
 * `Simple::buildUrL` and its two entry points `createUrl` and `toUrl`, step by step, as
 * functions of the configuration and the arguments.
 */
module BuildSpec {
  import opened Wrappers
  import opened Strings
  import opened PhpArray
  import Base64
  import opened RouteModel

  // ---------------------------------------------------------------- module and controller for the domain lookup

  /**
   * `/(.+?)\.(.+)\.(.+?)/` on one line: the first `.` after the first character closes the
   * module, the LAST `.` that still has a character after it closes the controller.
   */
  function MatchModCtl(line: string): (r: Option<(string, string)>)
    ensures r.Some? ==> r.value.0 != "" && r.value.1 != ""
  {
    if |line| < 2 then None
    else match IndexOf(line[1..], '.')
      case None => None
      case Some(k) =>
        var a := k + 1;
        match LastIndexOf(line[..|line| - 1], '.')
        case None => None
        case Some(b) =>
          if b >= a + 2 then Some((line[..a], line[a + 1..b]))
          else None
  }

  /** `/(.+?)\.(.+)/` on one line: the text before the first `.` after the first character, when something follows that `.`. */
  function MatchCtl(line: string): (r: Option<string>)
    ensures r.Some? ==> r.value != ""
  {
    if |line| < 2 then None
    else match IndexOf(line[1..], '.')
      case None => None
      case Some(k) => if k + 1 <= |line| - 2 then Some(line[..k + 1]) else None
  }

  function FirstModCtl(lines: seq<string>): Option<(string, string)> {
    if lines == [] then None
    else match MatchModCtl(lines[0])
      case Some(mc) => Some(mc)
      case None => FirstModCtl(lines[1..])
  }

  function FirstCtl(lines: seq<string>): Option<string> {
    if lines == [] then None
    else match MatchCtl(lines[0])
      case Some(c) => Some(c)
      case None => FirstCtl(lines[1..])
  }

  /**
   * Lines 289-296: the module and the controller the domain lookup uses, found with two patterns
   * on the lower-cased URL. The patterns look at the whole URL, not only at the part before the
   * first `/`, and the leftmost match lies on the first line that has one.
   */
  function ModCtl(lowered: string): (r: (string, string))
  {
    var lines := Split(lowered, '\n');
    match FirstModCtl(lines)
    case Some(mc) => mc
    case None =>
      match FirstCtl(lines)
      case Some(c) => ("", c)
      case None => ("", "")
  }

  // ---------------------------------------------------------------- alias contraction

  /** `stripos($url.'/', $rule.'/') === 0` once the rule is trimmed of `/`: a case-insensitive prefix at a segment boundary. */
  predicate RuleMatches(rule: string, url: string) {
    StartsWith(Lower(url + "/"), Lower(Trim(rule, "/") + "/"))
  }

  /** Lines 299-305: the first rule that matches is replaced by its short tag; at most one is. */
  function ContractAlias(alias: Pairs, url: string): (r: string)
  {
    if alias == [] then url
    else if RuleMatches(alias[0].1, url) then alias[0].0 + url[|Trim(alias[0].1, "/")|..]
    else ContractAlias(alias[1..], url)
  }

  // ---------------------------------------------------------------- variables, encoding, entry script

  /** `http_build_query($vars, '', '/')` for plain keys and values: `k=v` pieces joined with `/`. */
  function BuildQuery(vars: Pairs): string {
    if |vars| == 0 then ""
    else if |vars| == 1 then vars[0].0 + "=" + vars[0].1
    else vars[0].0 + "=" + vars[0].1 + "/" + BuildQuery(vars[1..])
  }

  /**
   * Lines 308-310: `/k:v` segments. The query string is taken without URL encoding, so every `=`
   * of it becomes `:`, including those in values.
   */
  function AttrSuffix(vars: Pairs): string {
    if |vars| == 0 then "" else "/" + ReplaceChar(BuildQuery(vars), '=', ':')
  }

  /** Lines 313-316: the path replaced by `q_` and its base64url form, padding dropped. */
  function EncodePath(url: string): (r: string)
    ensures r == "q_" + Base64.UrlEncode(url)
  {
    var t := Translate(Base64.Encode(url), "+/", "-_");
    var e := Base64.UrlEncode(url);
    assert TrimRight(t, "=") == e;
    assert TrimRight("q_" + t, "=") == "q_" + e by {
      TrimRightPrefix("q_", t, "=");
    }
    TrimRight("q_" + t, "=")
  }

  /** `rtrim` of a string with a prefix that does not end in a trimmed character. */
  lemma {:induction false} TrimRightPrefix(p: string, t: string, cs: string)
    requires p != [] && p[|p| - 1] !in cs
    ensures TrimRight(p + t, cs) == p + TrimRight(t, cs)
    decreases |t|
  {
    if t != [] && t[|t| - 1] in cs {
      assert (p + t)[..|p + t| - 1] == p + t[..|t| - 1];
      TrimRightPrefix(p, t[..|t| - 1], cs);
    } else if t == [] {
      assert p + t == p;
    }
  }

  // ---------------------------------------------------------------- domain, query, fragment

  /** Lines 330-331 (and 334-335, 338-339): `host/basePath/url`, each joint holding exactly one `/`. */
  function HostPrefix(host: string, basePath: string, url: string): string {
    var u := TrimRight(basePath, "/") + "/" + Trim(url, "/");
    TrimRight(host, "/") + "/" + Trim(u, "/")
  }

  /**
   * Lines 326-340: a domain set for `mod.ctl` wins over one set for `mod`, which wins over a full
   * URL on the site's own host; with none of them the URL stays relative.
   */
  function ApplyDomain(cfg: Config, mod: string, ctl: string, url: string, fullUrl: bool): string {
    var modAndCtl := Trim(mod + "." + ctl, ".");
    if Truthy(modAndCtl) && modAndCtl in cfg.domain then HostPrefix(cfg.domain[modAndCtl], cfg.basePath, url)
    else if Truthy(mod) && mod in cfg.domain then HostPrefix(cfg.domain[mod], cfg.basePath, url)
    else if fullUrl || cfg.fullUrl then HostPrefix(cfg.hostInfo, cfg.basePath, url)
    else url
  }

  /**
   * Lines 343-345: a non-empty query joins with `&` when the URL has a `?` AFTER its first
   * character (`strpos` truthiness: a `?` at position 0 counts as none), with `?` otherwise.
   */
  function AppendQuery(url: string, query: string): string {
    if !Truthy(query) then url
    else
      var hasQuery := match IndexOf(url, '?') case Some(p) => p > 0 case None => false;
      url + (if hasQuery then "&" else "?") + query
  }

  /** Lines 348-350. */
  function AppendFragment(url: string, fragment: string): string {
    if Truthy(fragment) then url + "#" + fragment else url
  }

  // ---------------------------------------------------------------- the whole of `buildUrL`

  /** The URL `buildUrL` gives before the domain, query and fragment: alias, variables, encoding, suffix, entry script. */
  function BuildPath(cfg: Config, url: string, vars: Pairs): string {
    var u1 := ContractAlias(cfg.alias, url) + AttrSuffix(vars);
    var u2 := if cfg.encode then EncodePath(u1) else u1;
    var u3 := u2 + cfg.rewriteExt;
    if cfg.rewrite then u3 else cfg.scriptName + "?" + u3
  }

  /** `buildUrL($uri, $vars, $query, $fragment, $fullUrl)`. */
  function BuildUrl(cfg: Config, uri: string, vars: Pairs, query: string, fragment: string, fullUrl: bool): string {
    var url := Trim(uri, "/");
    var (mod, ctl) := ModCtl(Lower(url));
    AppendFragment(AppendQuery(ApplyDomain(cfg, mod, ctl, BuildPath(cfg, url, vars), fullUrl), query), fragment)
  }

  /** The routing id and parameters `toUrl` writes for a record (lines 236-239). */
  function RouteUri(vo: RouteVO): string {
    var id := Trim(vo.mod + "." + vo.ctl + "." + vo.act, ".");
    if |vo.actParams| > 0 then id + "/" + Join(vo.actParams, '/') else id
  }

  /** `toUrl($fullUrl)` on the record `vo`. */
  function ToUrl(cfg: Config, vo: RouteVO, fullUrl: bool): string {
    BuildUrl(cfg, RouteUri(vo), vo.attributes, vo.query, vo.anchor, fullUrl)
  }

  /** `createUrl($uri, $vars, $fullUrl)`: the fragment is cut at the first `#`, then the query at the first `?`. */
  function CreateUrl(cfg: Config, uri: string, vars: Pairs, fullUrl: bool): string {
    var (beforeHash, fragment) := Cut(uri, '#');
    var (path, query) := Cut(beforeHash, '?');
    BuildUrl(cfg, path, vars, query.GetOr(""), fragment.GetOr(""), fullUrl)
  }
}
