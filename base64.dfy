/**
 * Base 64 as the router uses it: PHP's `base64_encode` (section 4 of RFC 4648, with padding),
 * PHP's non-strict `base64_decode` (characters outside the alphabet, `=` included, are skipped;
 * a missing padding is accepted), and the URL-safe wrapping that swaps `+/` for `-_` and drops
 * the padding (the base64url alphabet of section 5 of RFC 4648).
 * A `char` stands for one byte of a PHP string; the encoder reads its low eight bits.
 */
module Base64 {
  import opened Wrappers
  import opened Strings

  type Byte = b: int | 0 <= b < 256
  type Sextet = v: int | 0 <= v < 64

  /** A PHP string holds bytes: every character of it is below 256. */
  predicate IsByteString(s: string) {
    forall i :: 0 <= i < |s| ==> s[i] as int < 256
  }

  function ByteOf(c: char): Byte {
    (c as int) % 256
  }

  function BytesOf(s: string): (r: seq<Byte>)
    ensures |r| == |s| && forall i :: 0 <= i < |s| ==> r[i] == ByteOf(s[i])
  {
    if s == [] then [] else [ByteOf(s[0])] + BytesOf(s[1..])
  }

  function CharsOf(b: seq<Byte>): (r: string)
    ensures IsByteString(r)
    ensures |r| == |b| && forall i :: 0 <= i < |b| ==> r[i] as int == b[i]
  {
    if b == [] then [] else [b[0] as char] + CharsOf(b[1..])
  }

  /** Reading a byte string as bytes and back gives it back. */
  lemma {:induction false} CharsOfBytesOf(s: string)
    requires IsByteString(s)
    ensures CharsOf(BytesOf(s)) == s
  {
    if s != [] {
      assert BytesOf(s)[1..] == BytesOf(s[1..]);
      CharsOfBytesOf(s[1..]);
      assert (s[0] as int % 256) as char == s[0];
    }
  }

  /** Table 1 of RFC 4648: the character for a six-bit value. */
  function AlphabetChar(v: Sextet): char {
    if v < 26 then ('A' as int + v) as char
    else if v < 52 then ('a' as int + v - 26) as char
    else if v < 62 then ('0' as int + v - 52) as char
    else if v == 62 then '+'
    else '/'
  }

  /** The decoder's reverse table: the six-bit value of an alphabet character, None for any other. */
  function SextetOf(c: char): Option<Sextet> {
    if 'A' <= c <= 'Z' then Some(c as int - 'A' as int)
    else if 'a' <= c <= 'z' then Some(c as int - 'a' as int + 26)
    else if '0' <= c <= '9' then Some(c as int - '0' as int + 52)
    else if c == '+' then Some(62)
    else if c == '/' then Some(63)
    else None
  }

  lemma AlphabetInverse(v: Sextet)
    ensures SextetOf(AlphabetChar(v)) == Some(v)
  {
  }

  /** Bytes cut into six-bit groups, most significant first; a last group of one or two bytes gives two or three values. */
  function ToSextets(b: seq<Byte>): (r: seq<Sextet>)
    ensures |r| == |b| / 3 * 4 + (if |b| % 3 == 0 then 0 else |b| % 3 + 1)
  {
    if |b| == 0 then []
    else if |b| == 1 then [b[0] / 4, (b[0] % 4) * 16]
    else if |b| == 2 then [b[0] / 4, (b[0] % 4) * 16 + b[1] / 16, (b[1] % 16) * 4]
    else [b[0] / 4, (b[0] % 4) * 16 + b[1] / 16, (b[1] % 16) * 4 + b[2] / 64, b[2] % 64] + ToSextets(b[3..])
  }

  function Chars(v: seq<Sextet>): (r: string)
    ensures |r| == |v| && forall i :: 0 <= i < |v| ==> r[i] == AlphabetChar(v[i])
  {
    if v == [] then [] else [AlphabetChar(v[0])] + Chars(v[1..])
  }

  /** The `=` characters that fill the last group of four. */
  function Padding(n: nat): string {
    if n % 3 == 1 then "==" else if n % 3 == 2 then "=" else ""
  }

  /** `base64_encode($s)`. */
  function Encode(s: string): string {
    Chars(ToSextets(BytesOf(s))) + Padding(|s|)
  }

  /** The six-bit values of the alphabet characters of `s`, every other character skipped. */
  function Sextets(s: string): seq<Sextet> {
    if s == [] then []
    else match SextetOf(s[0])
      case Some(v) => [v] + Sextets(s[1..])
      case None => Sextets(s[1..])
  }

  lemma {:induction false} SextetsAppend(s: string, t: string)
    ensures Sextets(s + t) == Sextets(s) + Sextets(t)
  {
    if s != [] {
      assert (s + t)[0] == s[0] && (s + t)[1..] == s[1..] + t;
      SextetsAppend(s[1..], t);
      match SextetOf(s[0])
      case Some(v) =>
        assert Sextets(s + t) == [v] + Sextets(s[1..] + t);
      case None =>
        assert Sextets(s + t) == Sextets(s[1..] + t);
    } else {
      assert s + t == t;
    }
  }

  lemma {:induction false} SextetsOfChars(v: seq<Sextet>)
    ensures Sextets(Chars(v)) == v
  {
    if v != [] {
      AlphabetInverse(v[0]);
      assert Chars(v)[1..] == Chars(v[1..]);
      SextetsOfChars(v[1..]);
    }
  }

  /** PHP's decoding loop: each value adds six bits, each full eight bits make a byte, left-over bits are dropped. */
  function FromSextets(v: seq<Sextet>): seq<Byte> {
    if |v| <= 1 then []
    else
      var b0: Byte := v[0] as int * 4 + v[1] as int / 16;
      if |v| == 2 then [b0]
      else
        var b1: Byte := (v[1] as int % 16) * 16 + v[2] as int / 4;
        if |v| == 3 then [b0, b1]
        else
          var b2: Byte := (v[2] as int % 4) * 64 + v[3] as int;
          [b0, b1, b2] + FromSextets(v[4..])
  }

  /** `base64_decode($s)` in non-strict mode. */
  function Decode(s: string): (r: string)
    ensures IsByteString(r)
  {
    CharsOf(FromSextets(Sextets(s)))
  }

  lemma GroupOf3(b0: Byte, b1: Byte, b2: Byte)
    ensures var v1: int := (b0 % 4) * 16 + b1 / 16;
            var v2: int := (b1 % 16) * 4 + b2 / 64;
            (b0 / 4) * 4 + v1 / 16 == b0 &&
            (v1 % 16) * 16 + v2 / 4 == b1 &&
            (v2 % 4) * 64 + b2 % 64 == b2
  {
    var v1: int := (b0 % 4) * 16 + b1 / 16;
    var v2: int := (b1 % 16) * 4 + b2 / 64;
    assert v1 / 16 == b0 % 4 && v1 % 16 == b1 / 16;
    assert v2 / 4 == b1 % 16 && v2 % 4 == b2 / 64;
  }

  /** Decoding the six-bit groups of some bytes gives the bytes back. */
  lemma {:induction false} FromToSextets(b: seq<Byte>)
    ensures FromSextets(ToSextets(b)) == b
  {
    if |b| == 1 {
      OneByteBack(b);
    } else if |b| == 2 {
      TwoBytesBack(b);
    } else if |b| >= 3 {
      GroupBack(b);
      FromToSextets(b[3..]);
      assert b == b[..3] + b[3..];
    }
  }

  /** A single byte is two groups, and they give it back. */
  lemma {:induction false} OneByteBack(b: seq<Byte>)
    requires |b| == 1
    ensures FromSextets(ToSextets(b)) == b
  {
    assert ((b[0] % 4) * 16) / 16 == b[0] % 4;
  }

  /** Two bytes are three groups, and they give them back. */
  lemma {:induction false} TwoBytesBack(b: seq<Byte>)
    requires |b| == 2
    ensures FromSextets(ToSextets(b)) == b
  {
    var v1: int := (b[0] % 4) * 16 + b[1] / 16;
    assert v1 / 16 == b[0] % 4 && v1 % 16 == b[1] / 16;
    assert ((b[1] % 16) * 4) / 4 == b[1] % 16;
  }

  /** Three bytes and more: the first four groups give the first three bytes back. */
  lemma {:induction false} GroupBack(b: seq<Byte>)
    requires |b| >= 3
    ensures FromSextets(ToSextets(b)) == b[..3] + FromSextets(ToSextets(b[3..]))
  {
    var g: seq<Sextet> := [b[0] / 4, (b[0] % 4) * 16 + b[1] / 16, (b[1] % 16) * 4 + b[2] / 64, b[2] % 64];
    assert ToSextets(b) == g + ToSextets(b[3..]);
    FromGroup(g, ToSextets(b[3..]));
    GroupBytes(b[0], b[1], b[2], g);
    assert b[..3] == [b[0], b[1], b[2]];
  }

  /** A whole group of four decodes on its own. */
  lemma {:induction false} FromGroup(g: seq<Sextet>, rest: seq<Sextet>)
    requires |g| == 4
    ensures FromSextets(g + rest) == FromSextets(g) + FromSextets(rest)
  {
    assert (g + rest)[4..] == rest && g[4..] == [];
    assert (g + rest)[..4] == g;
  }

  /** The four groups of three bytes decode to those bytes. */
  lemma {:induction false} GroupBytes(b0: Byte, b1: Byte, b2: Byte, g: seq<Sextet>)
    requires g == [b0 / 4, (b0 % 4) * 16 + b1 / 16, (b1 % 16) * 4 + b2 / 64, b2 % 64]
    ensures FromSextets(g) == [b0, b1, b2]
  {
    GroupOf3(b0, b1, b2);
    assert g[4..] == [];
  }

  lemma PaddingHasNoSextets(n: nat)
    ensures Sextets(Padding(n)) == []
  {
    assert SextetOf('=') == None;
    assert Sextets("=") == Sextets("");
    assert "==" == "=" + "=";
    SextetsAppend("=", "=");
  }

  /** Section 4 of RFC 4648 round trip: decoding what `Encode` wrote restores every byte string. */
  lemma DecodeEncode(s: string)
    requires IsByteString(s)
    ensures Decode(Encode(s)) == s
  {
    var v := ToSextets(BytesOf(s));
    SextetsAppend(Chars(v), Padding(|s|));
    SextetsOfChars(v);
    PaddingHasNoSextets(|s|);
    assert Sextets(Encode(s)) == v;
    FromToSextets(BytesOf(s));
    CharsOfBytesOf(s);
  }

  /** Table 2 of RFC 4648: the base64url character for a six-bit value. */
  function UrlAlphabetChar(v: Sextet): char {
    if v == 62 then '-' else if v == 63 then '_' else AlphabetChar(v)
  }

  function UrlChars(v: seq<Sextet>): (r: string)
    ensures |r| == |v| && forall i :: 0 <= i < |v| ==> r[i] == UrlAlphabetChar(v[i])
  {
    if v == [] then [] else [UrlAlphabetChar(v[0])] + UrlChars(v[1..])
  }

  /** A character of the base64url alphabet (section 5 of RFC 4648). */
  predicate IsUrlSafeChar(c: char) {
    'A' <= c <= 'Z' || 'a' <= c <= 'z' || '0' <= c <= '9' || c == '-' || c == '_'
  }

  lemma TranslateChars(v: seq<Sextet>)
    ensures Translate(Chars(v), "+/", "-_") == UrlChars(v)
    ensures Translate(UrlChars(v), "-_", "+/") == Chars(v)
  {
    assert LastIndexOf("+/", '+') == Some(0) && LastIndexOf("+/", '/') == Some(1);
    assert LastIndexOf("-_", '-') == Some(0) && LastIndexOf("-_", '_') == Some(1);
    forall c | c != '+' && c != '/' ensures LastIndexOf("+/", c) == None {
    }
    forall c | c != '-' && c != '_' ensures LastIndexOf("-_", c) == None {
    }
  }

  lemma TranslatePadding(n: nat)
    ensures Translate(Padding(n), "+/", "-_") == Padding(n)
  {
    assert LastIndexOf("+/", '=') == None;
  }

  lemma TrimPadding(u: string, n: nat)
    requires u != [] ==> u[|u| - 1] != '='
    ensures TrimRight(u + Padding(n), "=") == u
  {
    var t := u + Padding(n);
    assert forall i :: |u| <= i < |t| ==> t[i] == Padding(n)[i - |u|];
    assert t[..|u|] == u;
    TrimRightUnique(t, "=", u);
  }

  lemma TranslateEncode(s: string)
    ensures Translate(Encode(s), "+/", "-_") == UrlChars(ToSextets(BytesOf(s))) + Padding(|s|)
  {
    var v := ToSextets(BytesOf(s));
    TranslateAppend(Chars(v), Padding(|s|), "+/", "-_");
    TranslateChars(v);
    TranslatePadding(|s|);
  }

  lemma UrlAlphabetSafe(v: Sextet)
    ensures IsUrlSafeChar(UrlAlphabetChar(v)) && UrlAlphabetChar(v) != '='
  {
  }

  /** `rtrim(strtr(base64_encode($s), '+/', '-_'), '=')`: the base64url characters of the six-bit groups, unpadded. */
  function UrlEncode(s: string): (r: string)
    ensures r == UrlChars(ToSextets(BytesOf(s)))
    ensures forall i :: 0 <= i < |r| ==> IsUrlSafeChar(r[i])
  {
    var u := UrlChars(ToSextets(BytesOf(s)));
    TranslateEncode(s);
    assert u != [] ==> u[|u| - 1] != '=' by {
      if u != [] { UrlAlphabetSafe(ToSextets(BytesOf(s))[|u| - 1]); }
    }
    TrimPadding(u, |s|);
    assert forall i :: 0 <= i < |u| ==> IsUrlSafeChar(u[i]) by {
      forall i | 0 <= i < |u| ensures IsUrlSafeChar(u[i]) {
        UrlAlphabetSafe(ToSextets(BytesOf(s))[i]);
      }
    }
    TrimRight(Translate(Encode(s), "+/", "-_"), "=")
  }

  /** `base64_decode(strtr($p, '-_', '+/'))`. */
  function UrlDecode(p: string): (r: string)
    ensures IsByteString(r)
  {
    Decode(Translate(p, "-_", "+/"))
  }

  /** The base64url round trip: the payload the router writes decodes back to the path it encoded. */
  lemma UrlDecodeEncode(s: string)
    requires IsByteString(s)
    ensures UrlDecode(UrlEncode(s)) == s
  {
    var v := ToSextets(BytesOf(s));
    TranslateChars(v);
    SextetsOfChars(v);
    FromToSextets(BytesOf(s));
    CharsOfBytesOf(s);
  }
}
