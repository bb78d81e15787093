/**
 * The PHP string built-ins the router relies on, over `string` (one `char` per byte).
 * Each function is named after what it does; its doc comment names the PHP built-in.
 */
module Strings {
  import opened Wrappers

  /** PHP's truthiness of a string: both "" and "0" are false. */
  predicate Truthy(s: string) {
    s != "" && s != "0"
  }

  /** `strpos($s, $c)` for a one-character needle: the first index of `c`, None for `false`. */
  function IndexOf(s: string, c: char): (r: Option<nat>)
    ensures r.None? <==> c !in s
    ensures r.Some? ==> r.value < |s| && s[r.value] == c && c !in s[..r.value]
  {
    if |s| == 0 then None
    else if s[0] == c then Some(0)
    else match IndexOf(s[1..], c)
      case None => None
      case Some(k) =>
        assert s[..k + 1] == [s[0]] + s[1..][..k];
        Some(k + 1)
  }

  /** `strrpos($s, $c)` for a one-character needle: the last index of `c`, None for `false`. */
  function LastIndexOf(s: string, c: char): (r: Option<nat>)
    ensures r.None? <==> c !in s
    ensures r.Some? ==> r.value < |s| && s[r.value] == c && c !in s[r.value + 1..]
  {
    if |s| == 0 then None
    else if s[|s| - 1] == c then Some(|s| - 1)
    else
      var r := LastIndexOf(s[..|s| - 1], c);
      assert s == s[..|s| - 1] + [s[|s| - 1]];
      assert r.Some? ==> s[r.value + 1..] == s[..|s| - 1][r.value + 1..] + [s[|s| - 1]];
      r
  }

  /** `$p === substr($s, 0, strlen($p))`. */
  predicate StartsWith(s: string, p: string) {
    |p| <= |s| && s[..|p|] == p
  }

  lemma StartsWithAppend(p: string, t: string)
    ensures StartsWith(p + t, p)
  {
    assert (p + t)[..|p|] == p;
  }

  /** `$p === substr($s, -strlen($p))` for a non-empty `$p`. */
  predicate EndsWith(s: string, p: string) {
    |p| <= |s| && s[|s| - |p|..] == p
  }

  /** `ltrim($s, $cs)`: drops the longest prefix made of characters of `cs`. */
  function TrimLeft(s: string, cs: string): (r: string)
    ensures |r| <= |s| && r == s[|s| - |r|..]
    ensures forall i :: 0 <= i < |s| - |r| ==> s[i] in cs
    ensures r != [] ==> r[0] !in cs
  {
    if |s| > 0 && s[0] in cs then TrimLeft(s[1..], cs) else s
  }

  /** `rtrim($s, $cs)`: drops the longest suffix made of characters of `cs`. */
  function TrimRight(s: string, cs: string): (r: string)
    ensures |r| <= |s| && r == s[..|r|]
    ensures forall i :: |r| <= i < |s| ==> s[i] in cs
    ensures r != [] ==> r[|r| - 1] !in cs
  {
    if |s| > 0 && s[|s| - 1] in cs then TrimRight(s[..|s| - 1], cs) else s
  }

  /** `trim($s, $cs)`: both ends. */
  function Trim(s: string, cs: string): (r: string)
    ensures |r| <= |s|
    ensures r != [] ==> r[0] !in cs && r[|r| - 1] !in cs
    ensures (forall i :: 0 <= i < |s| ==> s[i] in cs) <==> r == []
  {
    var l := TrimLeft(s, cs);
    var r := TrimRight(l, cs);
    r
  }

  /** Trimming a string whose end characters are not in `cs` leaves it as it is. */
  lemma TrimClean(s: string, cs: string)
    requires s != [] ==> s[0] !in cs && s[|s| - 1] !in cs
    ensures Trim(s, cs) == s && TrimLeft(s, cs) == s && TrimRight(s, cs) == s
  {
  }

  /** `str_replace($a, $b, $s)` for one-character `$a` and `$b`. */
  function ReplaceChar(s: string, a: char, b: char): (r: string)
    ensures |r| == |s|
    ensures forall i :: 0 <= i < |s| ==> r[i] == (if s[i] == a then b else s[i])
    ensures a != b ==> a !in r
  {
    if s == [] then [] else [if s[0] == a then b else s[0]] + ReplaceChar(s[1..], a, b)
  }

  /** Replacing `a` by `b` neither adds nor removes a third character. */
  lemma ReplaceKeeps(s: string, a: char, b: char, c: char)
    requires c != a && c != b
    ensures c in ReplaceChar(s, a, b) <==> c in s
  {
    var r := ReplaceChar(s, a, b);
    if c in s {
      var i :| 0 <= i < |s| && s[i] == c;
      assert r[i] == c;
    }
    if c in r {
      var i :| 0 <= i < |r| && r[i] == c;
      assert s[i] == c;
    }
  }

  /** Replacing `a` leaves a string without `a` unchanged. */
  lemma ReplaceAbsent(s: string, a: char, b: char)
    requires a !in s
    ensures ReplaceChar(s, a, b) == s
  {
  }

  lemma ReplaceAppend(s: string, t: string, a: char, b: char)
    ensures ReplaceChar(s + t, a, b) == ReplaceChar(s, a, b) + ReplaceChar(t, a, b)
  {
  }

  /** The character `strtr($s, $from, $to)` puts for `c`; with a repeated character the last pair wins. */
  function TranslateChar(c: char, from: string, to: string): char
    requires |from| == |to|
  {
    match LastIndexOf(from, c)
    case None => c
    case Some(k) => to[k]
  }

  /** `strtr($s, $from, $to)`: every character of `from` replaced by the character at the same place in `to`. */
  function Translate(s: string, from: string, to: string): (r: string)
    requires |from| == |to|
    ensures |r| == |s|
    ensures forall i :: 0 <= i < |s| ==> r[i] == TranslateChar(s[i], from, to)
  {
    if s == [] then [] else [TranslateChar(s[0], from, to)] + Translate(s[1..], from, to)
  }

  lemma {:induction false} TranslateAppend(s: string, t: string, from: string, to: string)
    requires |from| == |to|
    ensures Translate(s + t, from, to) == Translate(s, from, to) + Translate(t, from, to)
  {
    if s == [] {
      assert s + t == t;
    } else {
      assert (s + t)[0] == s[0] && (s + t)[1..] == s[1..] + t;
      TranslateAppend(s[1..], t, from, to);
    }
  }

  /** ASCII `strtolower` of one character. */
  function LowerChar(c: char): char {
    if 'A' <= c <= 'Z' then (c as int + 32) as char else c
  }

  /** ASCII `strtoupper` of one character. */
  function UpperChar(c: char): char {
    if 'a' <= c <= 'z' then (c as int - 32) as char else c
  }

  /** ASCII `strtolower($s)`. */
  function Lower(s: string): (r: string)
    ensures |r| == |s|
    ensures forall i :: 0 <= i < |s| ==> r[i] == LowerChar(s[i])
    ensures forall i :: 0 <= i < |r| ==> !('A' <= r[i] <= 'Z')
  {
    if s == [] then [] else [LowerChar(s[0])] + Lower(s[1..])
  }

  lemma LowerAppend(s: string, t: string)
    ensures Lower(s + t) == Lower(s) + Lower(t)
  {
  }

  /** A string without upper-case letters is its own lower-case form. */
  lemma LowerOfLower(s: string)
    requires forall i :: 0 <= i < |s| ==> !('A' <= s[i] <= 'Z')
    ensures Lower(s) == s
  {
  }

  /** ASCII `ucfirst($s)`. */
  function Ucfirst(s: string): (r: string)
    ensures |r| == |s| && (s != [] ==> r[0] == UpperChar(s[0]) && r[1..] == s[1..])
  {
    if s == [] then [] else [UpperChar(s[0])] + s[1..]
  }

  /** `implode($d, $parts)` with a one-character separator. */
  function Join(parts: seq<string>, d: char): string {
    if |parts| == 0 then ""
    else if |parts| == 1 then parts[0]
    else parts[0] + [d] + Join(parts[1..], d)
  }

  /** `explode($d, $s)` with a one-character separator: never empty, pieces free of `d`, and it undoes `Join`. */
  function Split(s: string, d: char): (r: seq<string>)
    ensures |r| >= 1
    ensures forall i :: 0 <= i < |r| ==> d !in r[i]
    ensures Join(r, d) == s
    decreases |s|
  {
    match IndexOf(s, d)
    case None => [s]
    case Some(k) =>
      var rest := Split(s[k + 1..], d);
      assert s == s[..k] + [d] + s[k + 1..];
      [s[..k]] + rest
  }

  /** Joining a non-empty list of separator-free pieces and splitting it again gives the pieces back. */
  lemma {:induction false} SplitJoin(parts: seq<string>, d: char)
    requires |parts| >= 1
    requires forall i :: 0 <= i < |parts| ==> d !in parts[i]
    ensures Split(Join(parts, d), d) == parts
  {
    if |parts| > 1 {
      var s := Join(parts, d);
      assert s == parts[0] + [d] + Join(parts[1..], d);
      assert s[..|parts[0]|] == parts[0];
      assert IndexOf(s, d) == Some(|parts[0]|) by {
        assert s[|parts[0]|] == d;
      }
      assert s[|parts[0]| + 1..] == Join(parts[1..], d);
      SplitJoin(parts[1..], d);
    }
  }

  /** Join distributes over concatenation of non-empty lists. */
  lemma {:induction false} JoinAppend(a: seq<string>, b: seq<string>, d: char)
    requires |a| >= 1 && |b| >= 1
    ensures Join(a + b, d) == Join(a, d) + [d] + Join(b, d)
  {
    if |a| == 1 {
      assert (a + b)[1..] == b;
    } else {
      assert (a + b)[0] == a[0];
      assert (a + b)[1..] == a[1..] + b;
      JoinAppend(a[1..], b, d);
    }
  }

  /** Splitting at a separator that is put between two strings splits both of them. */
  lemma SplitConcat(a: string, b: string, d: char)
    ensures Split(a + [d] + b, d) == Split(a, d) + Split(b, d)
  {
    var pa, pb := Split(a, d), Split(b, d);
    JoinAppend(pa, pb, d);
    assert forall i :: 0 <= i < |pa + pb| ==> d !in (pa + pb)[i] by {
      forall i | 0 <= i < |pa + pb| ensures d !in (pa + pb)[i] {
        if i < |pa| { assert (pa + pb)[i] == pa[i]; } else { assert (pa + pb)[i] == pb[i - |pa|]; }
      }
    }
    SplitJoin(pa + pb, d);
  }

  /** `explode` of a separator-free string is that string alone. */
  lemma SplitNone(s: string, d: char)
    requires d !in s
    ensures Split(s, d) == [s]
  {
  }

  /** Splits `s` once at the first `c`: the text before it and, if there is one, the text after it. */
  function Cut(s: string, c: char): (r: (string, Option<string>))
    ensures c !in r.0
    ensures r.1.None? <==> c !in s
    ensures s == r.0 + (if r.1.Some? then [c] + r.1.value else "")
  {
    match IndexOf(s, c)
    case None => (s, None)
    case Some(p) =>
      assert s == s[..p] + [c] + s[p + 1..];
      (s[..p], Some(s[p + 1..]))
  }

  /** A cut is unique: any decomposition at a first `c` is the one `Cut` finds. */
  lemma CutAt(a: string, b: string, c: char)
    requires c !in a
    ensures Cut(a + [c] + b, c) == (a, Some(b))
  {
    var s := a + [c] + b;
    assert s[|a|] == c;
    assert s[..|a|] == a;
    assert s[|a| + 1..] == b;
  }

  /** The text of `s` up to (and not including) its first newline: what PCRE's `.*` can cover. */
  function Line(s: string): (r: string)
    ensures '\n' !in r && StartsWith(s, r)
    ensures |r| < |s| ==> s[|r|] == '\n'
  {
    Cut(s, '\n').0
  }

  /** The index of the first `c` of `s` that comes before any newline. */
  function FirstInLine(s: string, c: char): (r: Option<nat>)
    ensures r.Some? ==> r.value < |s| && s[r.value] == c && c !in s[..r.value] && '\n' !in s[..r.value]
    ensures r.None? ==> c !in Line(s)
  {
    var r := IndexOf(Line(s), c);
    assert r.Some? ==> s[..r.value] == Line(s)[..r.value];
    r
  }

  /** `Line` is the only newline-free prefix that ends at a newline or at the end. */
  lemma LineUnique(s: string, r: string)
    requires '\n' !in r && StartsWith(s, r)
    requires |r| < |s| ==> s[|r|] == '\n'
    ensures Line(s) == r
  {
    var l := Line(s);
    assert l == s[..|l|] && r == s[..|r|];
  }

  lemma NotInConcat(a: string, b: string, c: char)
    requires c !in a && c !in b
    ensures c !in a + b
  {
  }

  /** A prefix of `t` after `p` is a prefix of `p + t` after `p`. */
  lemma PrefixConcat(p: string, m: string, t: string)
    requires StartsWith(t, m)
    ensures StartsWith(p + t, p + m)
  {
    assert (p + t)[..|p| + |m|] == p + t[..|m|];
  }

  /** The first line reaches past a newline-free prefix. */
  lemma LineAfter(s: string, e: nat)
    requires e <= |s| && '\n' !in s[..e]
    ensures Line(s) == s[..e] + Line(s[e..])
  {
    var p := s[..e];
    var t := s[e..];
    var m := Line(t);
    var r := p + m;
    assert s == p + t;
    assert '\n' !in r by {
      NotInConcat(p, m, '\n');
    }
    assert StartsWith(s, r) by {
      PrefixConcat(p, m, t);
    }
    if |r| < |s| {
      assert s[|r|] == t[|m|];
    }
    LineUnique(s, r);
  }

  /** Cutting at `c` is cutting at its first occurrence, `strpos($s, $c)`. */
  lemma CutIndex(s: string, c: char)
    ensures Cut(s, c).1.Some? <==> IndexOf(s, c).Some?
    ensures IndexOf(s, c).Some? ==>
      Cut(s, c).0 == s[..IndexOf(s, c).value] && Cut(s, c).1.value == s[IndexOf(s, c).value + 1..]
  {
  }

  /** `rtrim` gives the one prefix that leaves only characters of `cs` behind it and does not end in one. */
  lemma TrimRightUnique(s: string, cs: string, u: string)
    requires |u| <= |s| && s[..|u|] == u
    requires forall i :: |u| <= i < |s| ==> s[i] in cs
    requires u != [] ==> u[|u| - 1] !in cs
    ensures TrimRight(s, cs) == u
  {
    var r := TrimRight(s, cs);
    assert r == s[..|r|] && u == s[..|u|];
  }

  /** `ltrim` gives the one suffix that leaves only characters of `cs` before it and does not start with one. */
  lemma TrimLeftUnique(s: string, cs: string, u: string)
    requires |u| <= |s| && s[|s| - |u|..] == u
    requires forall i :: 0 <= i < |s| - |u| ==> s[i] in cs
    requires u != [] ==> u[0] !in cs
    ensures TrimLeft(s, cs) == u
  {
    var r := TrimLeft(s, cs);
    assert r == s[|s| - |r|..] && u == s[|s| - |u|..];
  }

  /** `strtr` with one character pair is `str_replace` of that character. */
  lemma TranslateOne(s: string, a: char, b: char)
    ensures Translate(s, [a], [b]) == ReplaceChar(s, a, b)
  {
    assert LastIndexOf([a], a) == Some(0);
    forall c | c != a ensures LastIndexOf([a], c) == None { }
    var l := Translate(s, [a], [b]);
    var r := ReplaceChar(s, a, b);
    assert forall i :: 0 <= i < |s| ==> l[i] == r[i];
  }

  /** `ltrim` of `rtrim` is `trim`. */
  lemma {:induction false} TrimBothWays(s: string, cs: string)
    ensures TrimLeft(TrimRight(s, cs), cs) == Trim(s, cs)
    decreases |s|
  {
    if s != [] && s[0] in cs {
      TrimBothWays(s[1..], cs);
      HeadTrimmed(s, cs);
    } else if s != [] {
      HeadKept(s, cs);
    }
  }

  /** A first character `rtrim` cannot reach stays first. */
  lemma HeadKept(s: string, cs: string)
    requires s != [] && s[0] !in cs
    ensures TrimRight(s, cs) != [] && TrimRight(s, cs)[0] == s[0]
  {
  }

  /** A first character of `cs` goes, whether `rtrim` comes first or not. */
  lemma HeadTrimmed(s: string, cs: string)
    requires s != [] && s[0] in cs
    ensures TrimLeft(TrimRight(s, cs), cs) == TrimLeft(TrimRight(s[1..], cs), cs)
  {
    var x := TrimRight(s[1..], cs);
    TrimRightCons(s, cs);
    if x != [] {
      assert ([s[0]] + x)[1..] == x;
    }
  }

  /** `rtrim` of `s` is its first character and `rtrim` of the rest, unless all of it goes. */
  lemma TrimRightCons(s: string, cs: string)
    requires s != []
    ensures var x := TrimRight(s[1..], cs);
      TrimRight(s, cs) == if x == [] && s[0] in cs then [] else [s[0]] + x
  {
    var x := TrimRight(s[1..], cs);
    if x == [] && s[0] in cs {
      forall i | 0 < i < |s| ensures s[i] in cs {
        assert s[i] == s[1..][i - 1];
      }
      TrimRightUnique(s, cs, []);
    } else {
      var u := [s[0]] + x;
      forall i | |u| <= i < |s| ensures s[i] in cs {
        assert s[i] == s[1..][i - 1];
      }
      assert s[..|u|] == u;
      TrimRightUnique(s, cs, u);
    }
  }

  /** `ltrim` of a text that starts with trimmed characters only, and goes on with `r`. */
  lemma {:induction false} TrimLeftAll(q: string, r: string, cs: string)
    requires forall k :: 0 <= k < |q| ==> q[k] in cs
    ensures TrimLeft(q + r, cs) == TrimLeft(r, cs)
    decreases |q|
  {
    if q == [] {
      assert q + r == r;
    } else {
      assert (q + r)[1..] == q[1..] + r;
      TrimLeftAll(q[1..], r, cs);
    }
  }

  /** `ltrim` of a text whose head `q` does not trim away entirely: the rest `r` stays. */
  lemma {:induction false} TrimLeftSome(q: string, r: string, cs: string)
    requires TrimLeft(q, cs) != []
    ensures TrimLeft(q + r, cs) == TrimLeft(q, cs) + r
    decreases |q|
  {
    if q[0] in cs {
      assert (q + r)[1..] == q[1..] + r;
      TrimLeftSome(q[1..], r, cs);
    }
  }

  /** `trim` is `ltrim`, then `rtrim`: when the first gives `x` and the second leaves `x` alone, the whole gives `x`. */
  lemma TrimParts(s: string, x: string, cs: string)
    requires TrimLeft(s, cs) == x && TrimRight(x, cs) == x
    ensures Trim(s, cs) == x
  {
  }
}
