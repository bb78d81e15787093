/**
 * `Simple::parse`, step by step, as functions of the configuration and the URI. Each PCRE
 * pattern of the method is written out as a scanner with the same leftmost-first, lazy/greedy
 * behaviour; PCRE's `.` does not match a newline, and the scanners keep that.
 */
module ParseSpec {
  import opened Wrappers
  import opened Strings
  import opened PhpArray
  import Base64
  import opened RouteModel

  // ---------------------------------------------------------------- host, base path, entry script

  /** The length of a match of `(http|https)://.*?/` at the head of `s`, if there is one. */
  function HostMatchLen(s: string): (r: Option<nat>)
    ensures r.Some? ==> 8 <= r.value <= |s| && ':' in s
    ensures r.Some? ==> (StartsWith(s, "http://") || StartsWith(s, "https://")) && s[r.value - 1] == '/'
    ensures r.Some? ==> var k := if StartsWith(s, "http://") then 7 else 8;
      k < r.value && '/' !in s[k..r.value - 1] && '\n' !in s[k..r.value - 1]
  {
    var k := if StartsWith(s, "http://") then 7 else if StartsWith(s, "https://") then 8 else 0;
    if k == 0 then None
    else match FirstInLine(s[k..], '/')
      case None => None
      case Some(j) =>
        assert s[..k][4] == ':' || s[..k][5] == ':';
        Some(k + j + 1)
  }

  /**
   * `preg_replace("/((http|https)\:\/\/.*?\/)/", '', $uri)`: every `http://…/` or `https://…/`,
   * wherever it occurs (not only at the start), is removed, scanning left to right.
   */
  function StripHosts(s: string): (r: string)
    ensures |r| <= |s|
    decreases |s|
  {
    if s == [] then []
    else match HostMatchLen(s)
      case Some(n) => StripHosts(s[n..])
      case None => [s[0]] + StripHosts(s[1..])
  }

  /** A URI without a `:` has no host to strip. */
  lemma {:induction false} StripHostsNoColon(s: string)
    requires ':' !in s
    ensures StripHosts(s) == s
    decreases |s|
  {
    if s != [] {
      assert ':' !in s[1..];
      StripHostsNoColon(s[1..]);
    }
  }

  /** Lines 122-126: drop the configured base path (trimmed of `/`) from the head, then `/` again. */
  function StripBasePath(basePath: string, u: string): (r: string)
    ensures |r| <= |u|
  {
    var base := Trim(basePath, "/");
    if Truthy(base) && StartsWith(u, base) then Trim(u[|base|..], "/") else u
  }

  /** Lines 132-134: drop the entry script name from the head of a non-empty path. */
  function StripScriptName(scriptName: string, u: string): (r: string)
    ensures |r| <= |u|
  {
    if Truthy(u) && StartsWith(u, scriptName) then u[|scriptName|..] else u
  }

  /** Lines 118-135: the request path relative to the site, without the entry script, trimmed of `./?`. */
  function NormalizePath(cfg: Config, uri: string): (r: string)
  {
    var relative := StripBasePath(cfg.basePath, Trim(StripHosts(uri), "/"));
    Trim(StripScriptName(cfg.scriptName, relative), "./?")
  }

  /** The cleaned path neither starts nor ends with `.`, `/` or `?`. */
  lemma NormalizedEnds(cfg: Config, uri: string)
    ensures var r := NormalizePath(cfg, uri);
      r != [] ==> r[0] != '.' && r[0] != '/' && r[0] != '?' && r[|r| - 1] != '.' && r[|r| - 1] != '/' && r[|r| - 1] != '?'
  {
    var cs := "./?";
    assert cs[0] == '.' && cs[1] == '/' && cs[2] == '?';
  }

  // ---------------------------------------------------------------- fragment and query

  /** The path, and the query and the fragment when the URI has them. */
  datatype Pieces = Pieces(path: string, query: Option<string>, anchor: Option<string>)

  /** The separator and the text it introduces, or nothing. */
  function Tail(sep: char, x: Option<string>): string {
    if x.Some? then [sep] + x.value else ""
  }

  /**
   * Lines 144-156: `?` becomes `&`; the fragment is what follows the first `#`, the query what
   * follows the first `&` before it. What is left of the path holds no `#`, `&` or `?`, and the
   * three pieces put back together with their separators give the rewritten URI.
   */
  function SplitAnchorQuery(u: string): (r: Pieces)
    ensures '#' !in r.path && '&' !in r.path && '?' !in r.path
    ensures r.query.Some? ==> '#' !in r.query.value && '?' !in r.query.value
    ensures r.anchor.Some? ==> '?' !in r.anchor.value
    ensures r.anchor.None? <==> '#' !in u
    ensures ReplaceChar(u, '?', '&') == r.path + Tail('&', r.query) + Tail('#', r.anchor)
  {
    var v := ReplaceChar(u, '?', '&');
    var (beforeHash, anchor) := Cut(v, '#');
    var (path, query) := Cut(beforeHash, '&');
    ReplaceKeeps(u, '?', '&', '#');
    assert '?' !in beforeHash && (anchor.Some? ==> '?' !in anchor.value) by {
      assert '?' !in v;
      assert v == beforeHash + Tail('#', anchor);
    }
    assert '?' !in path && (query.Some? ==> '?' !in query.value) by {
      assert beforeHash == path + Tail('&', query);
    }
    Pieces(path, query, anchor)
  }

  /** The two cuts `SplitAnchorQuery` makes, named. */
  lemma AnchorQueryCuts(uri: string, c1: (string, Option<string>), c2: (string, Option<string>))
    requires c1 == Cut(ReplaceChar(uri, '?', '&'), '#') && c2 == Cut(c1.0, '&')
    ensures SplitAnchorQuery(uri) == Pieces(c2.0, c2.1, c1.1)
  {
  }

  // ---------------------------------------------------------------- rewrite suffix

  /** Lines 159-161: a configured suffix at the very end of the path is cut off; the result is a prefix of the path. */
  function StripRewriteExt(ext: string, p: string): (r: string)
    ensures StartsWith(p, r)
    ensures r != p <==> Truthy(ext) && EndsWith(p, ext)
  {
    if Truthy(ext) && EndsWith(p, ext) then p[..|p| - |ext|] else p
  }

  // ---------------------------------------------------------------- encoded payload

  /** `q_` followed by a character other than a newline starts at `i`: where `/q_(.+)/` can match. */
  predicate PayloadAt(s: string, i: nat) {
    i + 2 < |s| && s[i] == 'q' && s[i + 1] == '_' && s[i + 2] != '\n'
  }

  /** The leftmost `i` from `from` on where `/q_(.+)/` matches. */
  function FindPayloadFrom(s: string, from: nat): (r: Option<nat>)
    ensures r.Some? ==> from <= r.value && PayloadAt(s, r.value)
    ensures forall j :: from <= j && (r.None? || j < r.value) ==> !PayloadAt(s, j)
    decreases |s| - from
  {
    if from + 2 >= |s| then None
    else if PayloadAt(s, from) then Some(from)
    else FindPayloadFrom(s, from + 1)
  }

  /**
   * Lines 164-167: with `encode` on, the first `q_` anywhere in the path (not only at its
   * start) marks the payload; its first line (PCRE's `.+`) is decoded as base64url and replaces
   * the WHOLE path, the text before `q_` included.
   */
  function DecodePayload(encode: bool, p: string): (r: string)
    ensures !encode || FindPayloadFrom(p, 0).None? ==> r == p
    ensures encode && FindPayloadFrom(p, 0).Some? ==> Base64.IsByteString(r)
  {
    if !encode then p
    else match FindPayloadFrom(p, 0)
      case None => p
      case Some(i) => Base64.UrlDecode(Line(p[i + 2..]))
  }

  // ---------------------------------------------------------------- `/name:value` attributes

  /** The index of the first `:` of `s`, provided no `/` or `&` comes before it (the lazy key `[^/&]+?`). */
  function KeyEnd(s: string): (r: Option<nat>)
    ensures r.Some? ==> r.value < |s| && s[r.value] == ':'
    ensures r.Some? ==> forall i :: 0 <= i < r.value ==> s[i] != '/' && s[i] != '&' && s[i] != ':'
  {
    if s == [] then None
    else if s[0] == ':' then Some(0)
    else if s[0] == '/' || s[0] == '&' then None
    else match KeyEnd(s[1..])
      case None => None
      case Some(k) => Some(k + 1)
  }

  /** The length of the run of characters `([^/&?]|$)*` takes: up to the first `/`, `&` or `?`. */
  function ValueLen(s: string): (n: nat)
    ensures n <= |s| && (n < |s| ==> s[n] in "/&?")
    ensures forall i :: 0 <= i < n ==> s[i] !in "/&?"
  {
    if s == [] || s[0] in "/&?" then 0 else 1 + ValueLen(s[1..])
  }

  /**
   * The length of a match of `/[^/&]+?:([^/&?]|$)*` at the head of `s` (the pattern of lines 170
   * and 177): a `/`, a key of at least one character that ends at the first `:` after it (the key
   * may itself begin with `:`), then the value up to the next `/`, `&` or `?`.
   */
  function AttrMatchLen(s: string): (r: Option<nat>)
    ensures r.Some? ==> 3 <= r.value <= |s| && s[0] == '/'
    ensures r.Some? ==> ':' in s[1..r.value] && '/' !in s[1..r.value] && '&' !in s[1..r.value]
  {
    if |s| < 2 || s[0] != '/' || s[1] == '/' || s[1] == '&' then None
    else match KeyEnd(s[2..])
      case None => None
      case Some(k) =>
        var c := 2 + k;
        var n := c + 1 + ValueLen(s[c + 1..]);
        assert s[1..n] == s[1..c] + [':'] + s[c + 1..n];
        assert forall i :: 1 <= i < c ==> s[i] != '/' && s[i] != '&' by {
          forall i | 1 <= i < c ensures s[i] != '/' && s[i] != '&' {
            if i >= 2 { assert s[i] == s[2..][i - 2]; }
          }
        }
        assert forall i :: c + 1 <= i < n ==> s[i] !in "/&?" by {
          forall i | c + 1 <= i < n ensures s[i] !in "/&?" {
            assert s[i] == s[c + 1..][i - c - 1];
          }
        }
        Some(n)
  }

  /**
   * One left-to-right pass of the attribute pattern: the `name:value` texts `preg_match_all`
   * captures at line 170, and what `preg_replace` leaves at line 177. Each captured text holds a
   * `:` and neither `/` nor `&`.
   */
  function AttrScan(s: string): (r: (seq<string>, string))
    ensures forall i :: 0 <= i < |r.0| ==> ':' in r.0[i] && '/' !in r.0[i] && '&' !in r.0[i]
    decreases |s|
  {
    if s == [] then ([], [])
    else match AttrMatchLen(s)
      case Some(n) =>
        assert ':' in s by { assert ':' in s[1..n]; }
        var (pieces, rest) := AttrScan(s[n..]);
        ([s[1..n]] + pieces, rest)
      case None =>
        assert ':' !in s ==> ':' !in s[1..];
        var (pieces, rest) := AttrScan(s[1..]);
        assert s == [s[0]] + s[1..];
        (pieces, [s[0]] + rest)
  }

  /**
   * `parse_str($s, $out)` on `&`-separated `name=value` tokens: a token is split at its first `=`
   * (no `=` gives the value ""), an empty token or an empty name is skipped, a repeated name
   * overwrites the earlier value in place.
   */
  function ParseStr(s: string): Pairs {
    PutTokens([], Split(s, '&'))
  }

  function PutTokens(acc: Pairs, tokens: seq<string>): Pairs
    decreases |tokens|
  {
    if tokens == [] then acc
    else
      var (name, value) := Cut(tokens[0], '=');
      PutTokens(if name == "" then acc else Put(acc, name, value.GetOr("")), tokens[1..])
  }

  /**
   * Lines 170-178: the `/name:value` segments leave the path and become the attributes. The
   * captured texts are joined with `&` and EVERY `:` becomes `=` before `parse_str` reads them,
   * so a value holding more `:` comes out with `=` in their place.
   */
  function ExtractAttributes(p: string): (r: (Pairs, string))
  {
    var (pieces, rest) := AttrScan(p);
    if pieces == [] then ([], p)
    else (ParseStr(ReplaceChar(Join(pieces, '&'), ':', '=')), rest)
  }

  // ---------------------------------------------------------------- routing id

  predicate IsRouteIdChar(c: char) {
    'a' <= c <= 'z' || 'A' <= c <= 'Z' || '0' <= c <= '9' || c == '_' || c == '.'
  }

  /** `!preg_match("/[^a-z0-9_\.]+/i", $s)`: only letters, digits, `_` and `.`; the empty string passes. */
  predicate IsRouteId(s: string) {
    forall i :: 0 <= i < |s| ==> IsRouteIdChar(s[i])
  }

  /**
   * Lines 188-201: a routing id without `.` is looked up, lower-cased, in the alias table; an
   * expansion holding `/` is put back in front of the parameters and the whole is split again.
   */
  function ExpandAlias(alias: Pairs, routeId: string, args: seq<string>): (r: (string, seq<string>))
  {
    if '.' in routeId then (routeId, args)
    else match Lookup(alias, Lower(routeId))
      case None => (routeId, args)
      case Some(target) =>
        if '/' in target then
          var parts := Split(Join([target] + args, '/'), '/');
          (parts[0], parts[1..])
        else (target, args)
  }

  /**
   * Lines 203-219: the routing id split on `.`. With modules on, the first component is the
   * module; if at least two components are then left, the last is the action; whatever is left
   * joined with `.` is the controller. All three are lower-cased; a missing one keeps its value.
   */
  function SplitRouteId(useModule: bool, routeId: string, vo: RouteVO): (r: RouteVO)
    ensures !useModule ==> r.mod == vo.mod
  {
    RouteOfParts(useModule, Split(routeId, '.'), vo)
  }

  /** Lines 207-219 on the components `arr` of the routing id. */
  function RouteOfParts(useModule: bool, arr: seq<string>, vo: RouteVO): (r: RouteVO)
    requires |arr| >= 1
    ensures !useModule ==> r.mod == vo.mod
  {
    var mod := if useModule then Lower(arr[0]) else vo.mod;
    var arr1 := if useModule then arr[1..] else arr;
    var act := if |arr1| >= 2 then Lower(arr1[|arr1| - 1]) else vo.act;
    var arr2 := if |arr1| >= 2 then arr1[..|arr1| - 1] else arr1;
    var ctl := if |arr2| > 0 then Lower(Join(arr2, '.')) else vo.ctl;
    vo.(mod := mod, ctl := ctl, act := act)
  }

  /**
   * Lines 180-223: the first `/`-segment is the routing id when it is made of routing-id
   * characters only; the other segments are the action parameters. Otherwise every segment is a
   * parameter and mod, ctl and act stay as they are.
   */
  function ResolveRoute(cfg: Config, vo: RouteVO, u: string): (r: RouteVO)
    ensures !cfg.useModule ==> r.mod == vo.mod
  {
    var args := Split(u, '/');
    if !IsRouteId(args[0]) then vo.(actParams := args)
    else
      var (routeId, rest) := ExpandAlias(cfg.alias, args[0], args[1..]);
      SplitRouteId(cfg.useModule, routeId, vo).(actParams := rest)
  }

  // ---------------------------------------------------------------- the whole of `parse`

  /**
   * Lines 170-225 on the decoded path: the attributes taken out of it, then the routing id and
   * the parameters, then the controller class.
   */
  function RouteOfPath(cfg: Config, vo: RouteVO, path: string): (r: RouteVO)
    ensures r.ctlClass == CtlClass(r.mod, r.ctl)
    ensures !cfg.useModule ==> r.mod == vo.mod
  {
    var (attributes, rest) := ExtractAttributes(path);
    WithCtlClass(ResolveRoute(cfg, vo.(attributes := attributes), rest))
  }

  /**
   * `parse($uri)`: the route record it leaves in `$this->vo`. Its controller class always agrees
   * with its module and controller, and without modules the module stays empty.
   */
  function ParseRoute(cfg: Config, uri: string): (vo: RouteVO)
    ensures vo.ctlClass == CtlClass(vo.mod, vo.ctl)
    ensures !cfg.useModule ==> vo.mod == ""
  {
    var vo0 := InitialVO(cfg);
    var u := NormalizePath(cfg, uri);
    if !Truthy(u) then WithCtlClass(vo0)
    else
      var pieces := SplitAnchorQuery(u);
      var path := DecodePayload(cfg.encode, StripRewriteExt(cfg.rewriteExt, pieces.path));
      RouteOfPath(cfg, vo0.(anchor := pieces.anchor.GetOr(""), query := pieces.query.GetOr("")), path)
  }

  /** A path that is empty once cleaned is the home route. */
  lemma ParseRouteHome(cfg: Config, uri: string)
    requires !Truthy(NormalizePath(cfg, uri))
    ensures ParseRoute(cfg, uri) == WithCtlClass(InitialVO(cfg))
  {
  }

  /** A path that survives the cleaning goes through the later phases in order. */
  lemma ParseRouteSteps(cfg: Config, uri: string, vo: RouteVO, path: string)
    requires Truthy(NormalizePath(cfg, uri))
    requires var p := SplitAnchorQuery(NormalizePath(cfg, uri));
      vo == InitialVO(cfg).(anchor := p.anchor.GetOr(""), query := p.query.GetOr(""))
      && path == DecodePayload(cfg.encode, StripRewriteExt(cfg.rewriteExt, p.path))
    ensures ParseRoute(cfg, uri) == RouteOfPath(cfg, vo, path)
  {
  }
}
