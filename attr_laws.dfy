/**
 * The `/name:value` segments: what `buildUrL` writes for its variables (lines 308-310) is read
 * back by `parse` (lines 170-178) — for plain names and values — and the `:` of a value comes
 * back as `=`.
 */
module AttrLaws {
  import opened Wrappers
  import opened Strings
  import opened PhpArray
  import opened ParseSpec
  import opened BuildSpec

  /**
   * A variable name and value `parse` can read back: a name with none of `/&:=`, and none of the
   * `. [` and space that PHP's `parse_str` renames, and a value with none of `/&?:`.
   */
  predicate PlainVar(kv: (string, string)) {
    kv.0 != "" && '/' !in kv.0 && '&' !in kv.0 && ':' !in kv.0 && '=' !in kv.0
    && '.' !in kv.0 && ' ' !in kv.0 && '[' !in kv.0
    && '/' !in kv.1 && '&' !in kv.1 && '?' !in kv.1 && ':' !in kv.1
  }

  predicate PlainVars(vars: Pairs) {
    DistinctKeys(vars) && forall i :: 0 <= i < |vars| ==> PlainVar(vars[i])
  }

  /** The text of one segment after its `/`: `name:value`, the `=` of the value written as `:`. */
  function Segment(kv: (string, string)): string {
    kv.0 + ":" + ReplaceChar(kv.1, '=', ':')
  }

  function Segments(vars: Pairs): seq<string> {
    if vars == [] then [] else [Segment(vars[0])] + Segments(vars[1..])
  }

  /** The segments written out, each with its leading `/`. */
  function Slashed(pieces: seq<string>): string {
    if pieces == [] then "" else "/" + pieces[0] + Slashed(pieces[1..])
  }

  /** The `k=v` text of one variable, its `=` written as `:`, is its segment. */
  lemma SegmentOfPair(kv: (string, string))
    requires '=' !in kv.0
    ensures ReplaceChar(kv.0 + "=" + kv.1, '=', ':') == Segment(kv)
  {
    ReplaceAppend(kv.0 + "=", kv.1, '=', ':');
    ReplaceAppend(kv.0, "=", '=', ':');
    ReplaceAbsent(kv.0, '=', ':');
  }

  /** What `http_build_query` writes, its `=` written as `:`: the segments joined with `/`. */
  lemma {:induction false} QuerySegments(vars: Pairs)
    requires vars != [] && forall i :: 0 <= i < |vars| ==> '=' !in vars[i].0
    ensures "/" + ReplaceChar(BuildQuery(vars), '=', ':') == Slashed(Segments(vars))
    decreases |vars|
  {
    SegmentOfPair(vars[0]);
    if |vars| > 1 {
      var head := vars[0].0 + "=" + vars[0].1;
      var tail := BuildQuery(vars[1..]);
      QuerySegments(vars[1..]);
      assert BuildQuery(vars) == (head + "/") + tail;
      ReplaceAppend(head + "/", tail, '=', ':');
      ReplaceAppend(head, "/", '=', ':');
      ReplaceAbsent("/", '=', ':');
    } else {
      assert Segments(vars[1..]) == [];
    }
  }

  /** `buildUrL`'s variables are the segments of its variables, each behind a `/`. */
  lemma AttrSuffixSegments(vars: Pairs)
    requires forall i :: 0 <= i < |vars| ==> PlainVar(vars[i])
    ensures AttrSuffix(vars) == Slashed(Segments(vars))
  {
    if vars != [] {
      QuerySegments(vars);
    }
  }

  // ---------------------------------------------------------------- the scan of lines 170 and 177

  /** A key that runs into a `/` (or the end) before any `:` is no key. */
  lemma {:induction false} KeyEndBlocked(y: string, t: string)
    requires ':' !in y && (t == [] || t[0] == '/')
    ensures KeyEnd(y + t) == None
    decreases |y|
  {
    if y == [] {
      assert y + t == t;
    } else {
      assert (y + t)[1..] == y[1..] + t;
      KeyEndBlocked(y[1..], t);
    }
  }

  /** A key of plain characters ends at the `:` behind it. */
  lemma {:induction false} KeyEndAt(k: string, w: string)
    requires '/' !in k && '&' !in k && ':' !in k
    ensures KeyEnd(k + ":" + w) == Some(|k|)
    decreases |k|
  {
    if k != [] {
      assert (k + ":" + w)[1..] == k[1..] + ":" + w;
      KeyEndAt(k[1..], w);
    }
  }

  /** A value of plain characters ends where the next segment's `/` starts. */
  lemma {:induction false} ValueLenAt(v: string, rest: string)
    requires '/' !in v && '&' !in v && '?' !in v && (rest == [] || rest[0] == '/')
    ensures ValueLen(v + rest) == |v|
    decreases |v|
  {
    if v == [] {
      assert v + rest == rest;
    } else {
      assert (v + rest)[1..] == v[1..] + rest;
      ValueLenAt(v[1..], rest);
    }
  }

  /** Where no match starts, the character stays in the path. */
  lemma AttrScanSkip(s: string, u: string, q: (seq<string>, string))
    requires s != [] && AttrMatchLen(s).None? && s[1..] == u && AttrScan(u) == q
    ensures AttrScan(s) == (q.0, [s[0]] + q.1)
  {
  }

  lemma ConsTail(x: string, w: string)
    requires x != []
    ensures [x[0]] + (x[1..] + w) == x + w
  {
    assert x == [x[0]] + x[1..];
  }

  /**
   * A text without `:` in front of the segments adds no match and stays in the path: the scan
   * of `s` is the scan of `s[k..]` with `s[..k]` in front of what is left.
   */
  lemma {:induction false} AttrScanPrefix(s: string, k: nat)
    requires k <= |s| && ':' !in s[..k] && (k == |s| || s[k] == '/')
    ensures AttrScan(s) == (AttrScan(s[k..]).0, s[..k] + AttrScan(s[k..]).1)
    decreases k
  {
    if k == 0 {
      assert s[k..] == s;
      assert s[..k] + AttrScan(s).1 == AttrScan(s).1;
    } else {
      var u := s[1..];
      ShiftPrefix(s, k);
      AttrScanPrefix(u, k - 1);
      NoMatchAt(s, k);
      var r := AttrScan(s[k..]);
      AttrScanSkip(s, u, (r.0, u[..k - 1] + r.1));
      ConsPrefix(s, k, r.1);
    }
  }

  /** What the conditions on `s` and `k` say of `s[1..]` and `k - 1`. */
  lemma ShiftPrefix(s: string, k: nat)
    requires 0 < k <= |s| && ':' !in s[..k] && (k == |s| || s[k] == '/')
    ensures var u := s[1..]; ':' !in u[..k - 1] && (k - 1 == |u| || u[k - 1] == '/') && u[k - 1..] == s[k..]
  {
    assert s[1..][..k - 1] == s[..k][1..];
  }

  lemma ConsPrefix(s: string, k: nat, w: string)
    requires 0 < k <= |s|
    ensures [s[0]] + (s[1..][..k - 1] + w) == s[..k] + w
  {
    assert s[..k] == [s[0]] + s[1..][..k - 1];
  }

  /** No match starts at the head of `s` when `s[..k]` has no `:` and a segment or the end follows it. */
  lemma NoMatchAt(s: string, k: nat)
    requires 0 < k <= |s| && ':' !in s[..k] && (k == |s| || s[k] == '/')
    ensures AttrMatchLen(s).None?
  {
    if |s| >= 2 && s[0] == '/' && s[1] != '/' && s[1] != '&' {
      assert k >= 2;
      assert s[2..] == s[2..k] + s[k..];
      assert ':' !in s[2..k] by {
        assert s[2..k] == s[..k][2..];
      }
      KeyEndBlocked(s[2..k], s[k..]);
    }
  }

  /** The pattern matches a whole `/name:value` segment and no more. */
  lemma SegmentMatch(k: string, w: string, rest: string)
    requires k != [] && '/' !in k && '&' !in k && ':' !in k
    requires '/' !in w && '&' !in w && '?' !in w && (rest == [] || rest[0] == '/')
    ensures AttrMatchLen("/" + k + ":" + w + rest) == Some(|k| + 2 + |w|)
  {
    var s := "/" + k + ":" + w + rest;
    assert s[1] == k[0];
    assert s[2..] == k[1..] + ":" + (w + rest);
    KeyEndAt(k[1..], w + rest);
    assert s[|k| + 2..] == w + rest;
    ValueLenAt(w, rest);
  }

  /** One `/name:value` segment is one match, and the scan goes on after it. */
  lemma AttrScanSegment(kv: (string, string), rest: string)
    requires PlainVar(kv) && (rest == [] || rest[0] == '/')
    ensures AttrScan("/" + Segment(kv) + rest) == ([Segment(kv)] + AttrScan(rest).0, AttrScan(rest).1)
  {
    var w := ReplaceChar(kv.1, '=', ':');
    var p := Segment(kv);
    var s := "/" + p + rest;
    PlainValue(kv.1);
    SegmentText(kv.0, w, rest);
    SegmentMatch(kv.0, w, rest);
    SegmentSlices(p, rest);
  }

  /** A written value keeps none of the characters that end a value. */
  lemma PlainValue(v: string)
    requires '/' !in v && '&' !in v && '?' !in v
    ensures var w := ReplaceChar(v, '=', ':'); '/' !in w && '&' !in w && '?' !in w
  {
    var w := ReplaceChar(v, '=', ':');
    forall i | 0 <= i < |w| ensures w[i] != '/' && w[i] != '&' && w[i] != '?' {
      assert w[i] == (if v[i] == '=' then ':' else v[i]);
    }
  }

  lemma SegmentText(k: string, w: string, rest: string)
    ensures "/" + (k + ":" + w) + rest == "/" + k + ":" + w + rest
  {
  }

  /** The segment and what follows it, sliced back out of `/segment rest`. */
  lemma SegmentSlices(p: string, rest: string)
    ensures var s := "/" + p + rest; s[1 + |p|..] == rest && s[1..1 + |p|] == p
  {
    var s := "/" + p + rest;
    assert s[1 + |p|..] == rest;
    assert s[1..1 + |p|] == p;
  }

  /** The segments alone are exactly the matches, and nothing is left. */
  lemma {:induction false} AttrScanSegments(vars: Pairs)
    requires forall i :: 0 <= i < |vars| ==> PlainVar(vars[i])
    ensures AttrScan(Slashed(Segments(vars))) == (Segments(vars), "")
    decreases |vars|
  {
    if vars != [] {
      var rest := Slashed(Segments(vars[1..]));
      AttrScanSegments(vars[1..]);
      assert Segments(vars[1..]) != [] ==> rest[0] == '/';
      AttrScanSegment(vars[0], rest);
      assert Slashed(Segments(vars)) == "/" + Segment(vars[0]) + rest;
    }
  }

  // ---------------------------------------------------------------- `parse_str` of the joined matches

  /** The `name=value` token `parse_str` reads for one variable. */
  function Token(kv: (string, string)): string {
    kv.0 + "=" + kv.1
  }

  function Tokens(vars: Pairs): seq<string> {
    if vars == [] then [] else [Token(vars[0])] + Tokens(vars[1..])
  }

  /** A value without `:` comes back from `=` → `:` → `=` as it was. */
  lemma ReplaceBack(v: string)
    requires ':' !in v
    ensures ReplaceChar(ReplaceChar(v, '=', ':'), ':', '=') == v
  {
    var w := ReplaceChar(ReplaceChar(v, '=', ':'), ':', '=');
    assert forall i :: 0 <= i < |v| ==> w[i] == v[i];
  }

  /** Line 172's `:` → `=` turns a segment back into its token. */
  lemma SegmentToken(kv: (string, string))
    requires PlainVar(kv)
    ensures ReplaceChar(Segment(kv), ':', '=') == Token(kv)
  {
    var w := ReplaceChar(kv.1, '=', ':');
    ReplaceAppend(kv.0 + ":", w, ':', '=');
    ReplaceAppend(kv.0, ":", ':', '=');
    ReplaceAbsent(kv.0, ':', '=');
    ReplaceBack(kv.1);
  }

  /** The segments joined with `&`, every `:` made `=`: the tokens joined with `&`. */
  lemma {:induction false} JoinedSegmentsTokens(vars: Pairs)
    requires vars != [] && forall i :: 0 <= i < |vars| ==> PlainVar(vars[i])
    ensures ReplaceChar(Join(Segments(vars), '&'), ':', '=') == Join(Tokens(vars), '&')
    decreases |vars|
  {
    SegmentToken(vars[0]);
    if |vars| > 1 {
      JoinedSegmentsTokens(vars[1..]);
      var tail := Join(Segments(vars[1..]), '&');
      assert Join(Segments(vars), '&') == Segment(vars[0]) + "&" + tail;
      assert Join(Tokens(vars), '&') == Token(vars[0]) + "&" + Join(Tokens(vars[1..]), '&');
      ReplaceAppend(Segment(vars[0]) + "&", tail, ':', '=');
      ReplaceAppend(Segment(vars[0]), "&", ':', '=');
    } else {
      assert Segments(vars[1..]) == [] && Tokens(vars[1..]) == [];
    }
  }

  /** Each token puts its variable: `parse_str` of the tokens is adding the variables in order. */
  lemma {:induction false} PutTokensVars(acc: Pairs, vars: Pairs)
    requires forall i :: 0 <= i < |vars| ==> PlainVar(vars[i])
    ensures PutTokens(acc, Tokens(vars)) == PutAll(acc, vars)
    decreases |vars|
  {
    if vars != [] {
      CutAt(vars[0].0, vars[0].1, '=');
      assert Token(vars[0]) == vars[0].0 + ['='] + vars[0].1;
      assert Tokens(vars)[1..] == Tokens(vars[1..]);
      PutTokensVars(Put(acc, vars[0].0, vars[0].1), vars[1..]);
    }
  }

  /** `parse_str` of the joined tokens gives the variables back, in their order. */
  lemma ParseStrTokens(vars: Pairs)
    requires vars != [] && PlainVars(vars)
    ensures ParseStr(Join(Tokens(vars), '&')) == vars
  {
    TokensSplit(vars);
    PutTokensVars([], vars);
    EmptyThen(vars);
    PutAllDistinct([], vars);
  }

  lemma EmptyThen(vars: Pairs)
    ensures [] + vars == vars
  {
  }

  /** The tokens of plain variables, joined with `&`, split back into the tokens. */
  lemma TokensSplit(vars: Pairs)
    requires vars != [] && forall i :: 0 <= i < |vars| ==> PlainVar(vars[i])
    ensures Split(Join(Tokens(vars), '&'), '&') == Tokens(vars)
  {
    var ts := Tokens(vars);
    TokensLength(vars);
    forall i | 0 <= i < |ts| ensures '&' !in ts[i] {
      TokenAt(vars, i);
    }
    SplitJoin(ts, '&');
  }

  lemma {:induction false} TokensLength(vars: Pairs)
    ensures |Tokens(vars)| == |vars|
    decreases |vars|
  {
    if vars != [] {
      TokensLength(vars[1..]);
    }
  }

  lemma {:induction false} TokenAt(vars: Pairs, i: nat)
    requires i < |vars| && |Tokens(vars)| == |vars|
    ensures Tokens(vars)[i] == Token(vars[i])
    decreases i
  {
    TokensLength(vars[1..]);
    if i > 0 {
      TokenAt(vars[1..], i - 1);
    }
  }

  // ---------------------------------------------------------------- the round trip

  /** The scan of a path without `:` followed by the variables: the segments are the matches, the path is left. */
  lemma ScanAttrSuffix(path: string, vars: Pairs)
    requires ':' !in path && vars != [] && forall i :: 0 <= i < |vars| ==> PlainVar(vars[i])
    ensures AttrScan(path + AttrSuffix(vars)) == (Segments(vars), path)
  {
    var suffix := AttrSuffix(vars);
    var s := path + suffix;
    AttrSuffixSegments(vars);
    AttrScanSegments(vars);
    assert s[..|path|] == path && s[|path|..] == suffix;
    AttrScanPrefix(s, |path|);
    assert path + "" == path;
  }

  /**
   * The variables `buildUrL` appends to a path without `:` are exactly the attributes `parse`
   * takes out of it, in their order, and the path is what is left.
   */
  lemma ExtractAttrSuffix(path: string, vars: Pairs)
    requires ':' !in path && vars != [] && PlainVars(vars)
    ensures ExtractAttributes(path + AttrSuffix(vars)) == (vars, path)
  {
    ScanAttrSuffix(path, vars);
    assert Segments(vars) != [];
    JoinedSegmentsTokens(vars);
    ParseStrTokens(vars);
  }

  /** A path without `:` has no attributes and stays as it is. */
  lemma ExtractNoAttributes(path: string)
    requires ':' !in path
    ensures ExtractAttributes(path) == ([], path)
  {
    assert path[..|path|] == path && path[|path|..] == [];
    AttrScanPrefix(path, |path|);
  }

  /** The one segment `/k:a:b` is one match. */
  lemma ScanColonValue(s: string, m: string)
    requires s == "/k:a:b" && m == "k:a:b"
    ensures AttrScan(s) == ([m], [])
  {
    SegmentMatch("k", "a:b", "");
    assert "/" + "k" + ":" + "a:b" + "" == s;
    ScanOneMatch(s, 6);
    assert s[1..6] == m;
  }

  /** A match that covers all of `s` is the one piece of the scan, and nothing is left. */
  lemma ScanOneMatch(s: string, n: nat)
    requires s != [] && n == |s| && AttrMatchLen(s) == Some(n)
    ensures AttrScan(s) == ([s[1..n]], [])
  {
    assert s[n..] == [];
    assert [s[1..n]] + [] == [s[1..n]];
  }

  /** `parse_str("k=a=b")` splits at the first `=` only. */
  lemma ParseStrColonValue(t: string)
    requires t == "k=a=b"
    ensures ParseStr(t) == [("k", "a=b")]
  {
    assert '&' !in t;
    SplitNone(t, '&');
    assert t == "k" + ['='] + "a=b";
    PutOneToken(t, "k", "a=b");
  }

  /** The one token `k=v` puts the one variable `k` = `v`. */
  lemma PutOneToken(t: string, k: string, v: string)
    requires k != "" && '=' !in k && t == k + ['='] + v
    ensures PutTokens([], [t]) == [(k, v)]
  {
    CutAt(k, v, '=');
    assert [t][1..] == [];
  }

  /** The `:` of `k:a:b` made `=`. */
  lemma ColonsToEquals(m: string, t: string)
    requires m == "k:a:b" && t == "k=a=b"
    ensures ReplaceChar(m, ':', '=') == t
  {
    var r := ReplaceChar(m, ':', '=');
    assert forall i :: 0 <= i < 5 ==> r[i] == t[i];
  }

  /** Line 172 makes every `:` a `=`: the value `a:b` is read as `a=b`. */
  lemma ColonInValue(s: string)
    requires s == "/k:a:b"
    ensures ExtractAttributes(s) == ([("k", "a=b")], "")
  {
    var m, t := "k:a:b", "k=a=b";
    ScanColonValue(s, m);
    assert Join([m], '&') == m;
    ColonsToEquals(m, t);
    ParseStrColonValue(t);
  }
}
