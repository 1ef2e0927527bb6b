/**
 * The `urllib.parse.urlencode(fields)` step of the url-encoded builders, with
 * its default `quote_plus` on str keys and values: unreserved characters
 * (section 2.3 of RFC 3986) stay, a space becomes `+`, every other character
 * becomes `%XX` (upper-case hex) for each byte of its UTF-8 encoding; the
 * `key=value` pairs are joined by `&` in insertion order.
 * `ParseForm` is the matching decoder, used as the reference partner.
 */
module UrlEncoding {
  import opened Results

  predicate Unreserved(c: char)
  {
    ('A' <= c <= 'Z') || ('a' <= c <= 'z') || ('0' <= c <= '9') || c == '_' || c == '.' || c == '-' || c == '~'
  }

  predicate IsAscii(s: string)
  {
    forall i :: 0 <= i < |s| ==> s[i] < 128 as char
  }

  predicate AsciiFields(fields: seq<(string, string)>)
  {
    forall i :: 0 <= i < |fields| ==> IsAscii(fields[i].0) && IsAscii(fields[i].1)
  }

  /** The UTF-8 bytes of one character (`str.encode("utf-8")`). */
  function Utf8(c: char): (bs: seq<nat>)
    ensures 1 <= |bs| <= 4
    ensures forall i :: 0 <= i < |bs| ==> bs[i] < 256
    ensures c < 128 as char ==> bs == [c as int]
  {
    var n := c as int;
    if n < 0x80 then [n]
    else if n < 0x800 then [0xC0 + n / 64, 0x80 + n % 64]
    else if n < 0x1_0000 then [0xE0 + n / 4096, 0x80 + (n / 64) % 64, 0x80 + n % 64]
    else [0xF0 + n / 262144, 0x80 + (n / 4096) % 64, 0x80 + (n / 64) % 64, 0x80 + n % 64]
  }

  predicate IsUpperHexDigit(c: char) { '0' <= c <= '9' || 'A' <= c <= 'F' }

  function UpperHexDigit(d: nat): (c: char)
    requires d < 16
    ensures IsUpperHexDigit(c)
  {
    if d < 10 then ('0' as int + d) as char else ('A' as int + d - 10) as char
  }

  function UpperHexValue(c: char): (d: nat)
    requires IsUpperHexDigit(c)
    ensures d < 16
  {
    if c <= '9' then c as int - '0' as int else c as int - 'A' as int + 10
  }

  /** `%XX` for every byte. */
  function PercentBytes(bs: seq<nat>): (s: string)
    requires forall i :: 0 <= i < |bs| ==> bs[i] < 256
    ensures |s| == 3 * |bs|
    ensures forall i :: 0 <= i < |s| ==> s[i] == '%' || IsUpperHexDigit(s[i])
    decreases |bs|
  {
    if bs == [] then []
    else ['%', UpperHexDigit(bs[0] / 16), UpperHexDigit(bs[0] % 16)] + PercentBytes(bs[1..])
  }

  function QuoteChar(c: char): string
  {
    if Unreserved(c) then [c]
    else if c == ' ' then "+"
    else PercentBytes(Utf8(c))
  }

  /** `quote_plus(s)` with the default empty `safe` set. */
  function QuotePlus(s: string): (q: string)
    ensures forall i :: 0 <= i < |q| ==> q[i] != '&' && q[i] != '='
    decreases |s|
  {
    if s == [] then [] else QuoteChar(s[0]) + QuotePlus(s[1..])
  }

  function EncodePair(k: string, v: string): string
  {
    QuotePlus(k) + "=" + QuotePlus(v)
  }

  /** `urlencode(fields)`, in dict order. */
  function UrlEncode(fields: seq<(string, string)>): string
    decreases |fields|
  {
    if fields == [] then ""
    else if |fields| == 1 then EncodePair(fields[0].0, fields[0].1)
    else EncodePair(fields[0].0, fields[0].1) + "&" + UrlEncode(fields[1..])
  }

  // ---- the decoding partner ----

  /** `unquote_plus` for single-byte escapes. */
  function UnquotePlus(s: string): string
    decreases |s|
  {
    if s == [] then []
    else if s[0] == '+' then " " + UnquotePlus(s[1..])
    else if s[0] == '%' && |s| >= 3 && IsUpperHexDigit(s[1]) && IsUpperHexDigit(s[2]) then
      [(16 * UpperHexValue(s[1]) + UpperHexValue(s[2])) as char] + UnquotePlus(s[3..])
    else [s[0]] + UnquotePlus(s[1..])
  }

  /** Position of the first c in s. */
  function IndexOf(s: string, c: char): (r: Option<nat>)
    ensures r.Some? ==> r.value < |s| && s[r.value] == c && forall j :: 0 <= j < r.value ==> s[j] != c
    ensures r.None? ==> forall j :: 0 <= j < |s| ==> s[j] != c
    decreases |s|
  {
    if s == [] then None
    else if s[0] == c then Some(0)
    else match IndexOf(s[1..], c)
      case None => None
      case Some(i) => Some(i + 1)
  }

  function ParsePair(t: string): (string, string)
  {
    match IndexOf(t, '=')
    case None => (UnquotePlus(t), "")
    case Some(i) => (UnquotePlus(t[..i]), UnquotePlus(t[i + 1..]))
  }

  function ParsePairs(s: string): seq<(string, string)>
    decreases |s|
  {
    match IndexOf(s, '&')
    case None => [ParsePair(s)]
    case Some(i) => [ParsePair(s[..i])] + ParsePairs(s[i + 1..])
  }

  /** Decode an `application/x-www-form-urlencoded` body into its pairs. */
  function ParseForm(s: string): seq<(string, string)>
  {
    if s == "" then [] else ParsePairs(s)
  }

  lemma IndexOfAfter(a: string, c: char, b: string)
    requires forall j :: 0 <= j < |a| ==> a[j] != c
    ensures IndexOf(a + [c] + b, c) == Some(|a|)
  {
    var s := a + [c] + b;
    assert s[|a|] == c;
    assert forall j :: 0 <= j < |a| ==> s[j] == a[j];
  }

  lemma UnquoteQuoteChar(c: char, rest: string)
    requires c < 128 as char
    ensures UnquotePlus(QuoteChar(c) + rest) == [c] + UnquotePlus(rest)
  {
    var s := QuoteChar(c) + rest;
    if Unreserved(c) {
      assert s[0] == c && s[1..] == rest;
    } else if c == ' ' {
      assert s[0] == '+' && s[1..] == rest;
    } else {
      var n := c as int;
      assert QuoteChar(c) == ['%', UpperHexDigit(n / 16), UpperHexDigit(n % 16)];
      assert s[3..] == rest;
      assert UpperHexValue(UpperHexDigit(n / 16)) == n / 16;
      assert UpperHexValue(UpperHexDigit(n % 16)) == n % 16;
    }
  }

  /** Decoding a quoted ASCII string gives it back. */
  lemma {:induction false} QuotePlusRoundTrip(s: string)
    requires IsAscii(s)
    ensures UnquotePlus(QuotePlus(s)) == s
    decreases |s|
  {
    if s != [] {
      QuotePlusRoundTrip(s[1..]);
      UnquoteQuoteChar(s[0], QuotePlus(s[1..]));
    }
  }

  lemma PairRoundTrip(k: string, v: string)
    requires IsAscii(k) && IsAscii(v)
    ensures ParsePair(EncodePair(k, v)) == (k, v)
  {
    IndexOfAfter(QuotePlus(k), '=', QuotePlus(v));
    var t := EncodePair(k, v);
    assert t[..|QuotePlus(k)|] == QuotePlus(k);
    assert t[|QuotePlus(k)| + 1..] == QuotePlus(v);
    QuotePlusRoundTrip(k);
    QuotePlusRoundTrip(v);
  }

  /** Quoting distributes over concatenation. */
  lemma {:induction false} QuotePlusConcat(a: string, b: string)
    ensures QuotePlus(a + b) == QuotePlus(a) + QuotePlus(b)
    decreases |a|
  {
    if a != [] {
      assert (a + b)[0] == a[0] && (a + b)[1..] == a[1..] + b;
      QuotePlusConcat(a[1..], b);
    } else {
      assert a + b == b;
    }
  }

  lemma QuotePlusOne(c: char)
    ensures QuotePlus([c]) == QuoteChar(c)
  {
    assert [c][1..] == [];
  }

  lemma QuoteSpace()
    ensures QuotePlus("b c") == "b+c"
  {
    QuotePlusOne('b');
    QuotePlusOne(' ');
    QuotePlusOne('c');
    assert "b c" == ['b'] + ([' '] + ['c']);
    QuotePlusConcat(['b'], [' '] + ['c']);
    QuotePlusConcat([' '], ['c']);
  }

  lemma QuoteAmpersand()
    ensures QuotePlus("x&y") == "x%26y"
  {
    QuotePlusOne('x');
    QuotePlusOne('&');
    QuotePlusOne('y');
    assert QuoteChar('&') == "%26" by {
      assert Utf8('&') == [38];
      assert PercentBytes([38]) == ['%', UpperHexDigit(2), UpperHexDigit(6)] + PercentBytes([]);
    }
    assert "x&y" == ['x'] + (['&'] + ['y']);
    QuotePlusConcat(['x'], ['&'] + ['y']);
    QuotePlusConcat(['&'], ['y']);
  }

  /** A worked example: a space becomes `+`, and `&` inside a value becomes `%26`. */
  lemma EncodeExample()
    ensures UrlEncode([("a", "1"), ("b c", "x&y")]) == "a=1&b+c=x%26y"
  {
    QuotePlusOne('a');
    QuotePlusOne('1');
    QuoteSpace();
    QuoteAmpersand();
    var f := [("a", "1"), ("b c", "x&y")];
    assert f[1..] == [("b c", "x&y")];
    assert UrlEncode(f) == EncodePair("a", "1") + "&" + EncodePair("b c", "x&y");
  }

  /** s holds no c. */
  predicate Lacks(s: string, c: char)
  {
    forall i :: 0 <= i < |s| ==> s[i] != c
  }

  lemma LacksConcat(a: string, b: string, c: char)
    requires Lacks(a, c) && Lacks(b, c)
    ensures Lacks(a + b, c)
  {
    forall i | 0 <= i < |a + b| ensures (a + b)[i] != c {
      if i >= |a| { assert (a + b)[i] == b[i - |a|]; }
    }
  }

  /** An encoded pair is not empty and holds no `&`, so `&` can only be a separator. */
  lemma PairHasNoAmpersand(k: string, v: string)
    ensures |EncodePair(k, v)| > 0 && Lacks(EncodePair(k, v), '&')
  {
    LacksConcat(QuotePlus(k), "=", '&');
    LacksConcat(QuotePlus(k) + "=", QuotePlus(v), '&');
  }

  /** A non-empty body without `&` is one pair. */
  lemma ParseAlone(p: string)
    requires p != "" && Lacks(p, '&')
    ensures ParseForm(p) == [ParsePair(p)]
  {
  }

  /** Splitting at the first `&`: a part without `&`, then the rest. */
  lemma ParseJoined(p: string, rest: string)
    requires Lacks(p, '&') && rest != ""
    ensures ParseForm(p + "&" + rest) == [ParsePair(p)] + ParseForm(rest)
  {
    IndexOfAfter(p, '&', rest);
    var s := p + "&" + rest;
    assert s[..|p|] == p;
    assert s[|p| + 1..] == rest;
  }

  /**
   * Decoding the encoded fields gives the fields back, in order; so the
   * encoding loses nothing and keeps insertion order.
   */
  lemma {:induction false} UrlEncodeRoundTrip(fields: seq<(string, string)>)
    requires AsciiFields(fields)
    ensures ParseForm(UrlEncode(fields)) == fields
    decreases |fields|
  {
    if fields != [] {
      var p := EncodePair(fields[0].0, fields[0].1);
      PairHasNoAmpersand(fields[0].0, fields[0].1);
      PairRoundTrip(fields[0].0, fields[0].1);
      if |fields| == 1 {
        ParseAlone(p);
        assert fields == [fields[0]];
      } else {
        var rest := UrlEncode(fields[1..]);
        assert UrlEncode(fields) == p + "&" + rest;
        UrlEncodeRoundTrip(fields[1..]);
        NonEmptyEncoding(fields[1..]);
        ParseJoined(p, rest);
        assert fields == [fields[0]] + fields[1..];
      }
    }
  }

  lemma NonEmptyEncoding(fields: seq<(string, string)>)
    requires fields != []
    ensures |UrlEncode(fields)| > 0
  {
  }

  /** Two field lists with the same (ASCII) encoding are equal. */
  lemma UrlEncodeInjective(f: seq<(string, string)>, g: seq<(string, string)>)
    requires AsciiFields(f) && AsciiFields(g) && UrlEncode(f) == UrlEncode(g)
    ensures f == g
  {
    UrlEncodeRoundTrip(f);
    UrlEncodeRoundTrip(g);
  }

  /** A character that quoting can produce from ASCII text. */
  predicate QuotedChar(c: char)
  {
    Unreserved(c) || c == '+' || c == '%' || IsUpperHexDigit(c)
  }

  lemma QuoteCharAlphabet(c: char)
    ensures forall i :: 0 <= i < |QuoteChar(c)| ==> QuotedChar(QuoteChar(c)[i])
  {
  }

  /** Quoted ASCII text is made only of unreserved characters, `+`, `%` and upper-case hex digits. */
  lemma {:induction false} QuotePlusAlphabet(s: string)
    requires IsAscii(s)
    ensures forall i :: 0 <= i < |QuotePlus(s)| ==> QuotedChar(QuotePlus(s)[i])
    decreases |s|
  {
    if s != [] {
      QuotePlusAlphabet(s[1..]);
      QuoteCharAlphabet(s[0]);
      var q := QuotePlus(s);
      var h := QuoteChar(s[0]);
      var t := QuotePlus(s[1..]);
      assert q == h + t;
      forall i | 0 <= i < |q| ensures QuotedChar(q[i]) {
        if i < |h| { assert q[i] == h[i]; } else { assert q[i] == t[i - |h|]; }
      }
    }
  }
}
