/**
 * `toUrl` undone by `parse` (lib/Simple.php:234-242, 283-353 and 111-227): with modules on and
 * no alias table, the URL written for a record routes back to that record, its controller class
 * filled in. This holds with rewriting on or off, with or without a rewrite suffix, encoded or
 * not, and relative or on a host (the site's own or a domain's). The record's query and fragment
 * come back too.
 */
module RoundTrip {
  import opened Wrappers
  import opened Strings
  import opened PhpArray
  import Base64
  import opened RouteModel
  import opened ParseSpec
  import opened BuildSpec
  import AttrLaws
  import ParseLaws
  import BuildLaws
  import CleanLaws

  // ---------------------------------------------------------------- what can make the trip

  /** A name `toUrl` writes and `parse` reads back unchanged: not empty, no `.`, no capital letter. */
  predicate LowerName(s: string) {
    s != [] && '.' !in s && forall i :: 0 <= i < |s| ==> !('A' <= s[i] <= 'Z')
  }

  /** A text the cleaning of lines 118-135 keeps whole at the end of a URL: no `//`, and no `.` or `/` last. */
  predicate Ends(s: string) {
    s != [] && ParseLaws.NoDoubleSlash(s) && s[|s| - 1] != '.' && s[|s| - 1] != '/' && s[|s| - 1] != '?'
  }

  /**
   * A path none of the steps of lines 118-156 changes: not empty and not `0`, none of `#`, `&`
   * and `?` (they cut it), and no `.` or `/` at either end (they are trimmed).
   */
  predicate Readable(s: string) {
    Truthy(s) && ParseLaws.NoDoubleSlash(s) && '#' !in s && '&' !in s && '?' !in s
    && s[0] != '.' && s[0] != '/' && s[|s| - 1] != '.' && s[|s| - 1] != '/'
  }

  /** A query `parse` gives back as it was written: none, or one with no `#` and no `?`. */
  predicate ReadableQuery(q: string) {
    q == "" || (Truthy(q) && '#' !in q && '?' !in q && Ends(q))
  }

  /** A fragment `parse` gives back as it was written: none, or one with no `?`. */
  predicate ReadableFragment(f: string) {
    f == "" || (Truthy(f) && '?' !in f && Ends(f))
  }

  /** A rewrite suffix `parse` takes off again: none, or one that keeps the path readable. */
  predicate ReadableSuffix(ext: string) {
    ext == "" || (Truthy(ext) && ParseLaws.NoDoubleSlash(ext) && '#' !in ext && '&' !in ext && '?' !in ext
      && ext[|ext| - 1] != '.' && ext[|ext| - 1] != '/')
  }

  /** With rewriting off, an entry script the cleaning does not trim or take for a host. */
  predicate ReadableScript(cfg: Config) {
    cfg.rewrite || cfg.scriptName == [] || (cfg.scriptName[0] != '/' && ParseLaws.NoDoubleSlash(cfg.scriptName))
  }

  /** A base path `parse` can find again in front of a full URL: not `0`, and no `//` in it. */
  predicate SiteBase(basePath: string) {
    Trim(basePath, "/") != "0" && ParseLaws.NoDoubleSlash(Trim(basePath, "/"))
  }

  /** `s` is at least as long as `p` and does not start with it. */
  predicate Apart(p: string, s: string) {
    |p| <= |s| && s[..|p|] != p
  }

  /**
   * A record `toUrl` can write without loss: lower-case names, a routing id of routing-id
   * characters, non-empty parameters without `/`, plain attributes, and a query and a fragment
   * `parse` gives back.
   */
  predicate Writable(vo: RouteVO) {
    LowerName(vo.mod) && LowerName(vo.ctl) && LowerName(vo.act)
    && IsRouteId(vo.mod + "." + vo.ctl + "." + vo.act)
    && (forall i :: 0 <= i < |vo.actParams| ==> vo.actParams[i] != [] && '/' !in vo.actParams[i])
    && AttrLaws.PlainVars(vo.attributes) && ReadableQuery(vo.query) && ReadableFragment(vo.anchor)
  }

  /** The routing id, the parameters and the attribute segments `toUrl` writes for a record. */
  function RouteText(vo: RouteVO): string {
    RouteUri(vo) + AttrSuffix(vo.attributes)
  }

  /** Lines 322-324: what goes in front of the path when rewriting is off. */
  function EntryPrefix(cfg: Config): string {
    if cfg.rewrite then "" else cfg.scriptName + "?"
  }

  /** Lines 313-316: the path, encoded when encoding is on. */
  function Body(cfg: Config, u: string): string {
    if cfg.encode then EncodePath(u) else u
  }

  /** A query or a fragment as `parse` finds it: there when the text is truthy. */
  function OptionOf(s: string): Option<string> {
    if Truthy(s) then Some(s) else None
  }

  /** Line 344: the separator a query gets, `&` after a `?` past the first character, `?` otherwise. */
  function QuerySep(u: string): char {
    match IndexOf(u, '?')
    case Some(p) => if p > 0 then '&' else '?'
    case None => '?'
  }

  // ---------------------------------------------------------------- the written URL

  /** Separator-free, non-empty segments joined: the ends are the first and the last segment's. */
  lemma {:induction false} JoinEnds(parts: seq<string>, d: char)
    requires |parts| >= 1 && forall i :: 0 <= i < |parts| ==> parts[i] != []
    ensures var j := Join(parts, d);
      j != [] && j[0] == parts[0][0] && j[|j| - 1] == parts[|parts| - 1][|parts[|parts| - 1]| - 1]
    decreases |parts|
  {
    if |parts| > 1 {
      var rest := Join(parts[1..], d);
      JoinEnds(parts[1..], d);
      assert Join(parts, d) == parts[0] + [d] + rest;
      assert parts[1..][|parts| - 2] == parts[|parts| - 1];
    }
  }

  /** Lines 236-239: the routing id `mod.ctl.act` (nothing to trim) joined with the parameters. */
  lemma RouteUriJoin(vo: RouteVO)
    requires vo.mod != [] && vo.act != [] && vo.mod[0] != '.' && vo.act[|vo.act| - 1] != '.'
    ensures RouteUri(vo) == Join([vo.mod + "." + vo.ctl + "." + vo.act] + vo.actParams, '/')
  {
    var id := vo.mod + "." + vo.ctl + "." + vo.act;
    assert id[0] == vo.mod[0] && id[|id| - 1] == vo.act[|vo.act| - 1];
    TrimClean(id, ".");
    if vo.actParams != [] {
      assert ([id] + vo.actParams)[1..] == vo.actParams;
    }
  }

  /** What a writable record guarantees of its names and its routing id. */
  lemma WritableId(vo: RouteVO)
    requires Writable(vo)
    ensures var id := vo.mod + "." + vo.ctl + "." + vo.act;
      IsRouteId(id) && '.' in id && id[0] == vo.mod[0] && id[|id| - 1] == vo.act[|vo.act| - 1]
      && vo.mod[0] != '.' && vo.act[|vo.act| - 1] != '.'
  {
    var id := vo.mod + "." + vo.ctl + "." + vo.act;
    assert id[|vo.mod|] == '.';
    assert vo.mod[0] in vo.mod && vo.act[|vo.act| - 1] in vo.act;
  }

  /** The routing id and parameters of a writable record: their join, which has nothing to trim. */
  lemma RouteUriTrimmed(vo: RouteVO)
    requires Writable(vo)
    ensures RouteUri(vo) == Join([vo.mod + "." + vo.ctl + "." + vo.act] + vo.actParams, '/')
    ensures Trim(RouteUri(vo), "/") == RouteUri(vo)
  {
    var id := vo.mod + "." + vo.ctl + "." + vo.act;
    var parts := [id] + vo.actParams;
    WritableId(vo);
    RouteUriJoin(vo);
    forall i | 0 <= i < |parts| ensures parts[i] != [] {
      if i > 0 {
        assert parts[i] == vo.actParams[i - 1];
      }
    }
    JoinEnds(parts, '/');
    assert IsRouteIdChar(id[0]) && IsRouteIdChar(id[|id| - 1]);
    if |parts| > 1 {
      var last := parts[|parts| - 1];
      assert last == vo.actParams[|vo.actParams| - 1];
      assert last[|last| - 1] in last;
    }
    var u := RouteUri(vo);
    TrimClean(u, "/");
  }

  /** Lines 298-324 with no alias table: the path and its attributes, encoded, the suffix, the entry script. */
  lemma PathOfRecord(cfg: Config, url: string, vars: Pairs)
    requires cfg.alias == []
    ensures BuildPath(cfg, url, vars) == EntryPrefix(cfg) + (Body(cfg, url + AttrSuffix(vars)) + cfg.rewriteExt)
  {
  }

  /** Lines 343-350: the query and the fragment go after the URL, each with its separator. */
  lemma AppendsTail(u: string, q: string, f: string)
    ensures AppendFragment(AppendQuery(u, q), f) == u + Tail(QuerySep(u), OptionOf(q)) + Tail('#', OptionOf(f))
  {
    QueryTail(u, q);
    FragmentTail(AppendQuery(u, q), f);
  }

  /** Lines 343-345: the query and its separator, when there is a query. */
  lemma QueryTail(u: string, q: string)
    ensures AppendQuery(u, q) == u + Tail(QuerySep(u), OptionOf(q))
  {
    if Truthy(q) {
      assert u + [QuerySep(u)] + q == u + ([QuerySep(u)] + q);
    }
  }

  /** Lines 348-350: the fragment and `#`, when there is a fragment. */
  lemma FragmentTail(u: string, f: string)
    ensures AppendFragment(u, f) == u + Tail('#', OptionOf(f))
  {
    if Truthy(f) {
      assert u + "#" + f == u + ("#" + f);
    }
  }


  /**
   * Lines 326-340: the URL stays relative only when no full URL is asked for; otherwise it is put on
   * one of the configured hosts.
   */
  lemma DomainCases(cfg: Config, mod: string, ctl: string, p: string, fullUrl: bool)
    requires fullUrl || cfg.fullUrl ==> CleanLaws.SiteHost(cfg.hostInfo)
    requires forall k :: k in cfg.domain ==> CleanLaws.SiteHost(cfg.domain[k])
    ensures var u := ApplyDomain(cfg, mod, ctl, p, fullUrl);
      (u == p && !(fullUrl || cfg.fullUrl)) || exists h :: CleanLaws.SiteHost(h) && u == HostPrefix(h, cfg.basePath, p)
  {
    var modAndCtl := Trim(mod + "." + ctl, ".");
    var u := ApplyDomain(cfg, mod, ctl, p, fullUrl);
    if Truthy(modAndCtl) && modAndCtl in cfg.domain {
      var h := cfg.domain[modAndCtl];
      assert CleanLaws.SiteHost(h) && u == HostPrefix(h, cfg.basePath, p);
    } else if Truthy(mod) && mod in cfg.domain {
      var h := cfg.domain[mod];
      assert CleanLaws.SiteHost(h) && u == HostPrefix(h, cfg.basePath, p);
    } else if fullUrl || cfg.fullUrl {
      var h := cfg.hostInfo;
      assert CleanLaws.SiteHost(h) && u == HostPrefix(h, cfg.basePath, p);
    }
  }

  /** Lines 330-331: the base path with its slashes trimmed, one `/`, then the path. */
  lemma BaseJoin(basePath: string, p: string)
    requires p != [] && p[0] != '/' && p[|p| - 1] != '/'
    ensures Trim(TrimRight(basePath, "/") + "/" + p, "/") == CleanLaws.UnderBase(basePath, p)
  {
    TrimBothWays(basePath, "/");
    SlashJoinTrim(TrimRight(basePath, "/"), p);
  }

  /** `trim` of `q/p`, where `p` has nothing to trim: `p` alone when `q` is all slashes, else the `ltrim` of `q`, `/` and `p`. */
  lemma SlashJoinTrim(q: string, p: string)
    requires p != [] && p[0] != '/' && p[|p| - 1] != '/'
    ensures var l := TrimLeft(q, "/"); Trim(q + "/" + p, "/") == if l == [] then p else l + "/" + p
  {
    JoinTrim(q, p);
    Assoc(q, "/", p);
    Assoc(TrimLeft(q, "/"), "/", p);
  }

  /** Concatenation, grouped either way. */
  lemma Assoc(a: string, b: string, c: string)
    ensures a + b + c == a + (b + c)
  {
  }

  /** The same, with the joint written `q + ("/" + p)`. */
  lemma JoinTrim(q: string, p: string)
    requires p != [] && p[0] != '/' && p[|p| - 1] != '/'
    ensures var l := TrimLeft(q, "/"); Trim(q + ("/" + p), "/") == if l == [] then p else l + ("/" + p)
  {
    var y := "/" + p;
    if TrimLeft(q, "/") == [] {
      TrimLeftAll(q, y, "/");
      SlashHead(p);
    } else {
      TrimLeftSome(q, y, "/");
      SlashTail(TrimLeft(q, "/"), p);
    }
  }

  /** A leading `/` goes, and a path with nothing to trim stays. */
  lemma SlashHead(p: string)
    requires p != [] && p[0] != '/' && p[|p| - 1] != '/'
    ensures TrimLeft("/" + p, "/") == p && TrimRight(p, "/") == p
  {
    assert ("/" + p)[1..] == p;
    TrimClean(p, "/");
  }

  /** `rtrim` stops at the last character of `p`. */
  lemma SlashTail(l: string, p: string)
    requires p != [] && p[|p| - 1] != '/'
    ensures TrimRight(l + ("/" + p), "/") == l + ("/" + p)
  {
    var r := l + ("/" + p);
    assert r[|r| - 1] == p[|p| - 1];
  }

  /** Lines 330-331 for a host the parser can take off again and a path with no `/` at its ends. */
  lemma HostPrefixText(host: string, basePath: string, p: string)
    requires CleanLaws.SiteHost(host) && p != [] && p[0] != '/' && p[|p| - 1] != '/'
    ensures HostPrefix(host, basePath, p) == host + "/" + CleanLaws.UnderBase(basePath, p)
  {
    CleanLaws.SiteHostTrimmed(host);
    TrimClean(p, "/");
    BaseJoin(basePath, p);
  }

  // ---------------------------------------------------------------- the shape of its pieces

  /** An encoded path is `q_` and base64url text: none of the characters the cleaning cuts or trims at. */
  lemma EncodedReadable(x: string)
    ensures Readable(EncodePath(x))
  {
    BuildLaws.EncodedIsClean(x);
    PrefixedReadable(Base64.UrlEncode(x));
  }

  /** `q_` and a text with none of `/`, `#`, `&`, `?` and `.` is readable. */
  lemma PrefixedReadable(e: string)
    requires '/' !in e && '#' !in e && '&' !in e && '?' !in e && '.' !in e
    ensures Readable("q_" + e)
  {
    var s := "q_" + e;
    NotInConcat("q_", e, '/');
    NotInConcat("q_", e, '#');
    NotInConcat("q_", e, '&');
    NotInConcat("q_", e, '?');
    if e != [] {
      assert s[|s| - 1] == e[|e| - 1] && e[|e| - 1] in e;
    }
    NoSlashNoDouble(s);
  }

  /** A text with no `/` has no `//`. */
  lemma NoSlashNoDouble(s: string)
    requires '/' !in s
    ensures ParseLaws.NoDoubleSlash(s)
  {
    forall i | 0 < i < |s| ensures !(s[i - 1] == '/' && s[i] == '/') {
      assert s[i] in s;
    }
  }

  /** The written path is readable: encoded, it always is; plain, when the record's text is. */
  lemma BodyReadable(cfg: Config, x: string)
    requires !cfg.encode ==> Readable(x)
    ensures Readable(Body(cfg, x))
  {
    if cfg.encode {
      EncodedReadable(x);
    }
  }

  /** A readable path followed by a readable suffix is readable. */
  lemma SuffixReadable(b: string, ext: string)
    requires Readable(b) && ReadableSuffix(ext)
    ensures Readable(b + ext)
  {
    if ext == [] {
      assert b + ext == b;
    } else {
      var s := b + ext;
      CleanLaws.NoDoubleSlashJoin(b, ext);
      NotInConcat(b, ext, '#');
      NotInConcat(b, ext, '&');
      NotInConcat(b, ext, '?');
      assert s[0] == b[0] && s[|s| - 1] == ext[|ext| - 1];
    }
  }

  /** A readable path ends as the cleaning keeps it. */
  lemma ReadableEnds(y: string)
    requires Readable(y)
    ensures Ends(y)
  {
    assert y[|y| - 1] in y;
  }

  /** A piece that keeps its ends, a separator other than `/`, and another such piece: the whole keeps its ends. */
  lemma EndsJoin(a: string, c: char, s: string)
    requires Ends(a) && c != '/' && Ends(s)
    ensures Ends(a + [c] + s) && (a + [c] + s)[0] == a[0]
  {
    var w := a + [c] + s;
    CleanLaws.NoDoubleSlashJoin(a, [c]);
    CleanLaws.NoDoubleSlashJoin(a + [c], s);
    assert w[|w| - 1] == s[|s| - 1];
  }

  /** The query and the fragment after a readable path leave it a text that keeps its ends. */
  lemma TailEnds(y: string, sep: char, q: string, f: string)
    requires Truthy(y) && Ends(y) && (sep == '?' || sep == '&') && ReadableQuery(q) && ReadableFragment(f)
    ensures var v := y + (Tail(sep, OptionOf(q)) + Tail('#', OptionOf(f)));
      Ends(v) && v[0] == y[0] && Truthy(v)
  {
    Assoc(y, Tail(sep, OptionOf(q)), Tail('#', OptionOf(f)));
    var a := y + Tail(sep, OptionOf(q));
    if Truthy(q) {
      EndsJoin(y, sep, q);
      assert a == y + [sep] + q;
    } else {
      assert a == y;
    }
    var v := a + Tail('#', OptionOf(f));
    if Truthy(f) {
      EndsJoin(a, '#', f);
      assert v == a + ['#'] + f;
    } else {
      assert v == a;
    }
  }

  /** With rewriting off, the entry script and `?` in front keep the ends of what follows. */
  lemma EntryShape(cfg: Config, v: string)
    requires ReadableScript(cfg) && Ends(v) && v[0] != '/'
    ensures var c := EntryPrefix(cfg) + v;
      ParseLaws.NoDoubleSlash(c) && c != [] && c[0] != '/' && c[|c| - 1] != '/'
  {
    var c := EntryPrefix(cfg) + v;
    if cfg.rewrite {
      assert c == v;
    } else {
      var e := cfg.scriptName + "?";
      CleanLaws.NoDoubleSlashJoin(cfg.scriptName, "?");
      CleanLaws.NoDoubleSlashJoin(e, v);
      assert c[|c| - 1] == v[|v| - 1];
      assert c[0] == e[0];
    }
  }

  /** A prefix that `a` does not start with does not start `a + b` either. */
  lemma ApartPrefix(p: string, a: string, b: string)
    requires Apart(p, a)
    ensures !StartsWith(a + b, p)
  {
    assert (a + b)[..|p|] == a[..|p|];
  }

  // ---------------------------------------------------------------- reading the URL back

  /** Lines 118-126 on a relative URL with no host in it, which does not start with the base path. */
  lemma RelativeClean(cfg: Config, c: string)
    requires ParseLaws.NoDoubleSlash(c) && c != [] && c[0] != '/' && c[|c| - 1] != '/'
    requires !(Truthy(Trim(cfg.basePath, "/")) && StartsWith(c, Trim(cfg.basePath, "/")))
    ensures StripBasePath(cfg.basePath, Trim(StripHosts(c), "/")) == c
  {
    HostFree(c);
    OffBase(cfg.basePath, c);
  }

  /** Line 123: a path that does not start with the base path keeps its head. */
  lemma OffBase(basePath: string, c: string)
    requires !(Truthy(Trim(basePath, "/")) && StartsWith(c, Trim(basePath, "/")))
    ensures StripBasePath(basePath, c) == c
  {
  }

  /** Lines 118-119 leave a URL with no `//` and no `/` at its ends as it is. */
  lemma HostFree(c: string)
    requires ParseLaws.NoDoubleSlash(c) && c != [] && c[0] != '/' && c[|c| - 1] != '/'
    ensures Trim(StripHosts(c), "/") == c
  {
    ParseLaws.StripHostsPlain(c);
    TrimSame(StripHosts(c), c);
  }

  /** A text equal to one with no `/` at its ends trims to it. */
  lemma TrimSame(x: string, c: string)
    requires x == c && c != [] && c[0] != '/' && c[|c| - 1] != '/'
    ensures Trim(x, "/") == c
  {
    TrimClean(c, "/");
  }

  /**
   * Lines 131-135: the entry script and `?` in front are taken off, and nothing else is; with
   * rewriting on there is nothing to take off, as long as the path does not start with the entry
   * script's text.
   */
  lemma ScriptStep(cfg: Config, v: string)
    requires Ends(v) && v[0] != '.' && v[0] != '/' && v[0] != '?'
    requires cfg.rewrite && cfg.scriptName != [] ==> !StartsWith(v, cfg.scriptName)
    ensures Trim(StripScriptName(cfg.scriptName, EntryPrefix(cfg) + v), "./?") == v
  {
    if cfg.rewrite {
      assert EntryPrefix(cfg) + v == v;
      if cfg.scriptName == [] {
        assert v[0..] == v;
      }
      var cs := "./?";
      assert v[0] !in cs && v[|v| - 1] !in cs;
      TrimClean(v, cs);
    } else {
      assert EntryPrefix(cfg) + v == cfg.scriptName + "?" + v;
      CleanLaws.EntryCut(cfg.scriptName, v);
    }
  }

  /** Line 144 on the path, the query and the fragment: only the separator `?` becomes `&`. */
  lemma ReplacedTail(y: string, sep: char, q: string, f: string)
    requires '?' !in y && (sep == '?' || sep == '&') && '?' !in q && '?' !in f
    ensures ReplaceChar(y + Tail(sep, OptionOf(q)) + Tail('#', OptionOf(f)), '?', '&')
      == y + Tail('&', OptionOf(q)) + Tail('#', OptionOf(f))
  {
    var tq := Tail(sep, OptionOf(q));
    var tf := Tail('#', OptionOf(f));
    ReplaceAppend(y + tq, tf, '?', '&');
    ReplaceAppend(y, tq, '?', '&');
    ReplaceAbsent(y, '?', '&');
    ReplaceAbsent(tf, '?', '&');
    if Truthy(q) {
      ReplaceAppend([sep], q, '?', '&');
      ReplaceAbsent(q, '?', '&');
      assert ReplaceChar([sep], '?', '&') == ['&'];
    }
  }

  /** Lines 147-156: the fragment is cut at its `#`, then the query at its `&`. */
  lemma CutTail(y: string, q: string, f: string)
    requires '#' !in y && '&' !in y && '#' !in q
    ensures var w := y + Tail('&', OptionOf(q)) + Tail('#', OptionOf(f));
      Cut(w, '#') == (y + Tail('&', OptionOf(q)), OptionOf(f)) && Cut(y + Tail('&', OptionOf(q)), '&') == (y, OptionOf(q))
  {
    var a := y + Tail('&', OptionOf(q));
    if Truthy(q) {
      assert a == y + ['&'] + q;
      CutAt(y, q, '&');
      NotInConcat(y + ['&'], q, '#');
    } else {
      assert a == y;
    }
    if Truthy(f) {
      assert a + Tail('#', OptionOf(f)) == a + ['#'] + f;
      CutAt(a, f, '#');
    } else {
      assert a + Tail('#', OptionOf(f)) == a;
    }
  }

  /** Lines 144-156 split the cleaned URL into the path, the query and the fragment that were written. */
  lemma SplitTail(y: string, sep: char, q: string, f: string)
    requires '#' !in y && '&' !in y && '?' !in y && (sep == '?' || sep == '&')
    requires '#' !in q && '?' !in q && '?' !in f
    ensures SplitAnchorQuery(y + Tail(sep, OptionOf(q)) + Tail('#', OptionOf(f))) == Pieces(y, OptionOf(q), OptionOf(f))
  {
    ReplacedTail(y, sep, q, f);
    CutTail(y, q, f);
  }

  /** Lines 159-167: the suffix comes off and the payload is decoded, giving the written path back. */
  lemma PathBack(cfg: Config, x: string)
    requires ReadableSuffix(cfg.rewriteExt) && x != [] && (cfg.encode ==> Base64.IsByteString(x))
    ensures DecodePayload(cfg.encode, StripRewriteExt(cfg.rewriteExt, Body(cfg, x) + cfg.rewriteExt)) == x
  {
    var b := Body(cfg, x);
    var y := b + cfg.rewriteExt;
    if cfg.rewriteExt == [] {
      assert y == b;
    } else {
      assert y[|y| - |cfg.rewriteExt|..] == cfg.rewriteExt;
      assert y[..|y| - |cfg.rewriteExt|] == b;
    }
    if cfg.encode {
      ParseLaws.PayloadRoundTrip(x);
    }
  }

  /** What the routing id of a writable record sets, with modules on: its own module, controller and action. */
  lemma ReadBack(cfg: Config, vo: RouteVO)
    requires cfg.useModule && Writable(vo)
    ensures var init := InitialVO(cfg).(anchor := vo.anchor, query := vo.query, attributes := vo.attributes);
      SplitRouteId(true, vo.mod + "." + vo.ctl + "." + vo.act, init).(actParams := vo.actParams) == vo.(ctlClass := "")
  {
    var init := InitialVO(cfg).(anchor := vo.anchor, query := vo.query, attributes := vo.attributes);
    var r := SplitRouteId(true, vo.mod + "." + vo.ctl + "." + vo.act, init);
    ParseLaws.ModuleControllerAction(vo.mod, vo.ctl, vo.act, init);
    LowerOfLower(vo.mod);
    LowerOfLower(vo.ctl);
    LowerOfLower(vo.act);
    assert r == init.(mod := vo.mod, ctl := vo.ctl, act := vo.act);
  }

  /** Lines 170-224 on the text of a writable record: its attributes, names and parameters come back. */
  lemma RouteOfRecord(cfg: Config, vo: RouteVO)
    requires cfg.useModule && Writable(vo) && ':' !in RouteUri(vo)
    ensures RouteOfPath(cfg, InitialVO(cfg).(anchor := vo.anchor, query := vo.query), RouteText(vo)) == WithCtlClass(vo)
  {
    var id := vo.mod + "." + vo.ctl + "." + vo.act;
    var path := Join([id] + vo.actParams, '/');
    var init := InitialVO(cfg).(anchor := vo.anchor, query := vo.query);
    RouteUriTrimmed(vo);
    WritableId(vo);
    if vo.attributes == [] {
      assert RouteText(vo) == path;
      AttrLaws.ExtractNoAttributes(path);
    } else {
      AttrLaws.ExtractAttrSuffix(path, vo.attributes);
    }
    ParseLaws.RouteParams(cfg, init.(attributes := vo.attributes), id, vo.actParams);
    ReadBack(cfg, vo);
  }

  /** A query or fragment `parse` gives back: what it finds is what was written. */
  lemma OptionBack(s: string)
    requires s == "" || Truthy(s)
    ensures OptionOf(s).GetOr("") == s
  {
  }

  // ---------------------------------------------------------------- the round trip

  /**
   * Lines 118-135 on the written URL `u + t` (`u` relative or on a host, `t` the query and the
   * fragment): the host, the base path and the entry script come off, leaving the path, the
   * suffix and `t`.
   */
  lemma CleanRecordUrl(cfg: Config, u: string, b: string, t: string, fullUrl: bool)
    requires var p := EntryPrefix(cfg) + (b + cfg.rewriteExt);
      (u == p && !(fullUrl || cfg.fullUrl)) || exists h :: CleanLaws.SiteHost(h) && u == HostPrefix(h, cfg.basePath, p)
    requires Readable(b) && ReadableSuffix(cfg.rewriteExt) && ReadableScript(cfg) && SiteBase(cfg.basePath)
    requires var v := b + cfg.rewriteExt + t; Ends(v) && v[0] == b[0]
    requires !(fullUrl || cfg.fullUrl) && Truthy(Trim(cfg.basePath, "/")) ==> Apart(Trim(cfg.basePath, "/"), EntryPrefix(cfg) + b)
    requires cfg.rewrite && cfg.scriptName != [] ==> Apart(cfg.scriptName, b)
    ensures NormalizePath(cfg, u + t) == b + cfg.rewriteExt + t
  {
    var y := b + cfg.rewriteExt;
    var v := y + t;
    var c := EntryPrefix(cfg) + v;
    EntryShape(cfg, v);
    Assoc(EntryPrefix(cfg), y, t);
    SuffixReadable(b, cfg.rewriteExt);
    ReadableEnds(y);
    EntryShape(cfg, y);
    BaseCleaned(cfg, u, b, t, c, fullUrl);
    ScriptCleaned(cfg, b, t, v);
    CleanLaws.CleanedVia(cfg, u + t, c, v);
  }

  /** Lines 118-126 on the written URL: the host and the base path come off, when they are there. */
  lemma BaseCleaned(cfg: Config, u: string, b: string, t: string, c: string, fullUrl: bool)
    requires var p := EntryPrefix(cfg) + (b + cfg.rewriteExt);
      (u == p && !(fullUrl || cfg.fullUrl)) || exists h :: CleanLaws.SiteHost(h) && u == HostPrefix(h, cfg.basePath, p)
    requires var p := EntryPrefix(cfg) + (b + cfg.rewriteExt); c == p + t && p != [] && p[0] != '/' && p[|p| - 1] != '/'
    requires ParseLaws.NoDoubleSlash(c) && c != [] && c[0] != '/' && c[|c| - 1] != '/' && SiteBase(cfg.basePath)
    requires !(fullUrl || cfg.fullUrl) && Truthy(Trim(cfg.basePath, "/")) ==> Apart(Trim(cfg.basePath, "/"), EntryPrefix(cfg) + b)
    ensures StripBasePath(cfg.basePath, Trim(StripHosts(u + t), "/")) == c
  {
    var p := EntryPrefix(cfg) + (b + cfg.rewriteExt);
    if u == p && !(fullUrl || cfg.fullUrl) {
      RelativeBase(cfg, b, t, c);
      assert u + t == c;
    } else {
      var h :| CleanLaws.SiteHost(h) && u == HostPrefix(h, cfg.basePath, p);
      HostBase(cfg, h, u, p, t, c);
    }
  }

  /** Lines 118-126 on a relative URL: nothing comes off, as it does not start with the base path. */
  lemma RelativeBase(cfg: Config, b: string, t: string, c: string)
    requires c == EntryPrefix(cfg) + (b + cfg.rewriteExt) + t
    requires ParseLaws.NoDoubleSlash(c) && c != [] && c[0] != '/' && c[|c| - 1] != '/'
    requires Truthy(Trim(cfg.basePath, "/")) ==> Apart(Trim(cfg.basePath, "/"), EntryPrefix(cfg) + b)
    ensures StripBasePath(cfg.basePath, Trim(StripHosts(c), "/")) == c
  {
    if Truthy(Trim(cfg.basePath, "/")) {
      Assoc(EntryPrefix(cfg), b, cfg.rewriteExt);
      Assoc(EntryPrefix(cfg) + b, cfg.rewriteExt, t);
      ApartPrefix(Trim(cfg.basePath, "/"), EntryPrefix(cfg) + b, cfg.rewriteExt + t);
    }
    RelativeClean(cfg, c);
  }

  /** Lines 118-126 on a URL on a host: the host and the base path come off. */
  lemma HostBase(cfg: Config, h: string, u: string, p: string, t: string, c: string)
    requires CleanLaws.SiteHost(h) && u == HostPrefix(h, cfg.basePath, p)
    requires c == p + t && p != [] && p[0] != '/' && p[|p| - 1] != '/'
    requires ParseLaws.NoDoubleSlash(c) && c != [] && c[0] != '/' && c[|c| - 1] != '/' && SiteBase(cfg.basePath)
    ensures StripBasePath(cfg.basePath, Trim(StripHosts(u + t), "/")) == c
  {
    OnHost(cfg, h, p, t);
    CleanLaws.SiteRequestCut(cfg, h, c);
  }


  /** Lines 131-135 on what is left: the entry script comes off when rewriting is off, and nothing else does. */
  lemma ScriptCleaned(cfg: Config, b: string, t: string, v: string)
    requires v == b + cfg.rewriteExt + t && Readable(b) && Ends(v) && v[0] == b[0]
    requires cfg.rewrite && cfg.scriptName != [] ==> Apart(cfg.scriptName, b)
    ensures Trim(StripScriptName(cfg.scriptName, EntryPrefix(cfg) + v), "./?") == v
  {
    if cfg.rewrite && cfg.scriptName != [] {
      Assoc(b, cfg.rewriteExt, t);
      ApartPrefix(cfg.scriptName, b, cfg.rewriteExt + t);
    }
    ScriptStep(cfg, v);
  }

  /** A URL put on a host, then its query and fragment: the host, the base path and the rest. */
  lemma OnHost(cfg: Config, h: string, p: string, t: string)
    requires CleanLaws.SiteHost(h) && p != [] && p[0] != '/' && p[|p| - 1] != '/'
    ensures HostPrefix(h, cfg.basePath, p) + t == h + "/" + CleanLaws.UnderBase(cfg.basePath, p + t)
  {
    HostPrefixText(h, cfg.basePath, p);
    UnderBaseAppend(cfg.basePath, p, t);
    AppendAfter(HostPrefix(h, cfg.basePath, p), h, CleanLaws.UnderBase(cfg.basePath, p), t, CleanLaws.UnderBase(cfg.basePath, p + t));
  }

  /** `h/ub`, then `t`, is `h/` and `ub + t`. */
  lemma AppendAfter(x: string, h: string, ub: string, t: string, w: string)
    requires x == h + "/" + ub && ub + t == w
    ensures x + t == h + "/" + w
  {
  }

  /** What follows the path stays after it under the base path. */
  lemma UnderBaseAppend(basePath: string, p: string, t: string)
    ensures CleanLaws.UnderBase(basePath, p) + t == CleanLaws.UnderBase(basePath, p + t)
  {
    var base := Trim(basePath, "/");
    if base != [] {
      assert base + "/" + p + t == base + "/" + (p + t);
    }
  }

  /**
   * `toUrl` and `parse` are inverse: with modules on and no alias table, parsing the URL written
   * for a writable record gives the record back, its controller class filled in. Rewriting may
   * be on or off, the suffix set or not, encoding on or off, the URL relative or on a host. The
   * relative URL must not start with the base path's text, and with rewriting on the path must
   * not start with the entry script's text: `parse` cuts both as plain text (lines 123 and 132).
   */
  lemma ToUrlParse(cfg: Config, vo: RouteVO, fullUrl: bool)
    requires cfg.useModule && cfg.alias == []
    requires Writable(vo) && ':' !in RouteUri(vo)
    requires if cfg.encode then Base64.IsByteString(RouteText(vo)) else Readable(RouteText(vo))
    requires ReadableSuffix(cfg.rewriteExt) && ReadableScript(cfg) && SiteBase(cfg.basePath)
    requires fullUrl || cfg.fullUrl ==> CleanLaws.SiteHost(cfg.hostInfo)
    requires forall k :: k in cfg.domain ==> CleanLaws.SiteHost(cfg.domain[k])
    requires !(fullUrl || cfg.fullUrl) && Truthy(Trim(cfg.basePath, "/"))
      ==> Apart(Trim(cfg.basePath, "/"), EntryPrefix(cfg) + Body(cfg, RouteText(vo)))
    requires cfg.rewrite && cfg.scriptName != [] ==> Apart(cfg.scriptName, Body(cfg, RouteText(vo)))
    ensures ParseRoute(cfg, ToUrl(cfg, vo, fullUrl)) == WithCtlClass(vo)
  {
    var x := RouteText(vo);
    var b := Body(cfg, x);
    var y := b + cfg.rewriteExt;
    var p := EntryPrefix(cfg) + y;
    var mc := ModCtl(Lower(RouteUri(vo)));
    var u := ApplyDomain(cfg, mc.0, mc.1, p, fullUrl);
    var t := Tail(QuerySep(u), OptionOf(vo.query)) + Tail('#', OptionOf(vo.anchor));
    WrittenUrl(cfg, vo, fullUrl, u);
    RouteTextFilled(vo);
    BodyReadable(cfg, x);
    SuffixReadable(b, cfg.rewriteExt);
    ReadableEnds(y);
    TailEnds(y, QuerySep(u), vo.query, vo.anchor);
    Assoc(u, Tail(QuerySep(u), OptionOf(vo.query)), Tail('#', OptionOf(vo.anchor)));
    DomainCases(cfg, mc.0, mc.1, p, fullUrl);
    CleanRecordUrl(cfg, u, b, t, fullUrl);
    RecordSteps(cfg, vo, u + t, y, QuerySep(u));
  }

  /** Lines 283-353 on a record's routing id: the URL `u` the domain step gives, then the query and the fragment. */
  lemma WrittenUrl(cfg: Config, vo: RouteVO, fullUrl: bool, u: string)
    requires cfg.alias == [] && Writable(vo)
    requires var mc := ModCtl(Lower(RouteUri(vo)));
      u == ApplyDomain(cfg, mc.0, mc.1, EntryPrefix(cfg) + (Body(cfg, RouteText(vo)) + cfg.rewriteExt), fullUrl)
    ensures ToUrl(cfg, vo, fullUrl) == u + Tail(QuerySep(u), OptionOf(vo.query)) + Tail('#', OptionOf(vo.anchor))
  {
    RouteUriTrimmed(vo);
    PathOfRecord(cfg, RouteUri(vo), vo.attributes);
    AppendsTail(u, vo.query, vo.anchor);
  }

  /** The text written for a writable record is not empty. */
  lemma RouteTextFilled(vo: RouteVO)
    requires Writable(vo)
    ensures RouteText(vo) != []
  {
    RouteUriTrimmed(vo);
    JoinEnds([vo.mod + "." + vo.ctl + "." + vo.act] + vo.actParams, '/');
  }

  /** Lines 137-224 on the cleaned URL: the path, query and fragment that were written, then the route. */
  lemma RecordSteps(cfg: Config, vo: RouteVO, w: string, y: string, sep: char)
    requires cfg.useModule && Writable(vo) && ':' !in RouteUri(vo) && RouteText(vo) != []
    requires cfg.encode ==> Base64.IsByteString(RouteText(vo))
    requires ReadableSuffix(cfg.rewriteExt) && y == Body(cfg, RouteText(vo)) + cfg.rewriteExt && Readable(y)
    requires sep == '?' || sep == '&'
    requires var v := y + (Tail(sep, OptionOf(vo.query)) + Tail('#', OptionOf(vo.anchor)));
      NormalizePath(cfg, w) == v && Truthy(v)
    ensures ParseRoute(cfg, w) == WithCtlClass(vo)
  {
    PiecesBack(cfg, vo, w, y, sep);
    ParseRouteSteps(cfg, w, InitialVO(cfg).(anchor := vo.anchor, query := vo.query), RouteText(vo));
    RouteOfRecord(cfg, vo);
  }

  /** Lines 144-167 on the cleaned URL: the query, the fragment and the routing text that were written. */
  lemma PiecesBack(cfg: Config, vo: RouteVO, w: string, y: string, sep: char)
    requires RouteText(vo) != [] && (cfg.encode ==> Base64.IsByteString(RouteText(vo)))
    requires ReadableSuffix(cfg.rewriteExt) && y == Body(cfg, RouteText(vo)) + cfg.rewriteExt && Readable(y)
    requires (sep == '?' || sep == '&') && ReadableQuery(vo.query) && ReadableFragment(vo.anchor)
    requires NormalizePath(cfg, w) == y + (Tail(sep, OptionOf(vo.query)) + Tail('#', OptionOf(vo.anchor)))
    ensures var pc := SplitAnchorQuery(NormalizePath(cfg, w));
      pc.anchor.GetOr("") == vo.anchor && pc.query.GetOr("") == vo.query
      && DecodePayload(cfg.encode, StripRewriteExt(cfg.rewriteExt, pc.path)) == RouteText(vo)
  {
    Assoc(y, Tail(sep, OptionOf(vo.query)), Tail('#', OptionOf(vo.anchor)));
    SplitTail(y, sep, vo.query, vo.anchor);
    OptionBack(vo.query);
    OptionBack(vo.anchor);
    PathBack(cfg, RouteText(vo));
  }

}
