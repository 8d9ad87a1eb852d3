/** `_apply_github_pat` of the MCP server: a GitHub personal access token
    is put in front of the host of an http(s) clone URL, percent-encoded as
    `urllib.parse.quote(pat, safe="")` does (section 2.1 of RFC 3986, over
    the UTF-8 bytes of section 3 of RFC 3629). URLs are modelled as the
    six components `urlparse` splits them into. */
module McpUrl {
  import opened Basics

  type Byte = x: int | 0 <= x < 256

  /** The characters `quote` never encodes: the unreserved set of
      section 2.3 of RFC 3986. */
  predicate Unreserved(c: char) {
    'A' <= c <= 'Z' || 'a' <= c <= 'z' || '0' <= c <= '9' || c == '-' || c == '.' || c == '_' || c == '~'
  }

  /** The UTF-8 bytes of one character. */
  function Utf8Char(c: char): (r: seq<Byte>)
    ensures 1 <= |r| <= 4
    ensures |r| == 1 <==> c as int < 0x80
    ensures |r| == 1 ==> r[0] == c as int
  {
    var cp := c as int;
    if cp < 0x80 then [cp]
    else if cp < 0x800 then [0xC0 + cp / 0x40, 0x80 + cp % 0x40]
    else if cp < 0x1_0000 then [0xE0 + cp / 0x1000, 0x80 + cp / 0x40 % 0x40, 0x80 + cp % 0x40]
    else [0xF0 + cp / 0x4_0000 % 8, 0x80 + cp / 0x1000 % 0x40, 0x80 + cp / 0x40 % 0x40, 0x80 + cp % 0x40]
  }

  /** `s.encode("utf-8")` */
  function Utf8(s: string): seq<Byte> {
    if s == [] then [] else Utf8Char(s[0]) + Utf8(s[1..])
  }

  /** An upper-case hexadecimal digit, as `quote` writes them. */
  function HexUpper(n: nat): (c: char)
    requires n < 16
    ensures '0' <= c <= '9' || 'A' <= c <= 'F'
  {
    if n < 10 then ('0' as int + n) as char else ('A' as int + n - 10) as char
  }

  predicate IsHex(c: char) {
    '0' <= c <= '9' || 'A' <= c <= 'F' || 'a' <= c <= 'f'
  }

  function HexValue(c: char): (n: nat)
    requires IsHex(c)
    ensures n < 16
  {
    if '0' <= c <= '9' then c as int - '0' as int
    else if 'A' <= c <= 'F' then c as int - 'A' as int + 10
    else c as int - 'a' as int + 10
  }

  lemma HexRoundTrip(n: nat)
    requires n < 16
    ensures IsHex(HexUpper(n)) && HexValue(HexUpper(n)) == n
  {
  }

  /** The `%XX` escape of one byte. */
  function Escape(b: Byte): (r: string)
    ensures |r| == 3
    ensures forall k :: 0 <= k < 3 ==> r[k] == '%' || Unreserved(r[k])
  {
    ['%', HexUpper(b / 16), HexUpper(b % 16)]
  }

  /** `%XX` escapes of a run of bytes. */
  function Escapes(bs: seq<Byte>): (r: string)
    ensures |r| == 3 * |bs|
    ensures forall k :: 0 <= k < |r| ==> r[k] == '%' || Unreserved(r[k])
  {
    if bs == [] then [] else Escape(bs[0]) + Escapes(bs[1..])
  }

  /** How `quote(_, safe="")` writes one character. */
  function QuoteChar(c: char): (r: string)
    ensures forall k :: 0 <= k < |r| ==> r[k] == '%' || Unreserved(r[k])
  {
    if Unreserved(c) then [c] else Escapes(Utf8Char(c))
  }

  /** `quote(s, safe="")`: every character outside the unreserved set
      becomes the `%XX` escapes of its UTF-8 bytes, so the result holds no
      `@`, `:` or `/` that could change how the URL is split. */
  function Quote(s: string): (r: string)
    ensures forall k :: 0 <= k < |r| ==> r[k] == '%' || Unreserved(r[k])
  {
    if s == [] then [] else QuoteChar(s[0]) + Quote(s[1..])
  }

  /** `unquote_to_bytes`: `%XX` escapes become the byte they name and any
      other character its UTF-8 bytes. */
  function PercentDecode(t: string): seq<Byte> {
    if t == [] then []
    else if |t| >= 3 && t[0] == '%' && IsHex(t[1]) && IsHex(t[2]) then
      [HexValue(t[1]) * 16 + HexValue(t[2])] + PercentDecode(t[3..])
    else Utf8Char(t[0]) + PercentDecode(t[1..])
  }

  /** An escape decodes to the byte it was written for. */
  lemma EscapeDecodes(b: Byte, rest: string)
    ensures PercentDecode(Escape(b) + rest) == [b] + PercentDecode(rest)
  {
    var t := Escape(b) + rest;
    HexRoundTrip(b / 16);
    HexRoundTrip(b % 16);
    assert t[..3] == Escape(b) && t[3..] == rest;
  }

  lemma {:induction false} EscapesDecode(bs: seq<Byte>, rest: string)
    ensures PercentDecode(Escapes(bs) + rest) == bs + PercentDecode(rest)
  {
    if bs != [] {
      ConcatAssoc(Escape(bs[0]), Escapes(bs[1..]), rest);
      EscapeDecodes(bs[0], Escapes(bs[1..]) + rest);
      EscapesDecode(bs[1..], rest);
      HeadTail(bs, PercentDecode(rest));
    } else {
      assert Escapes(bs) + rest == rest;
    }
  }

  /** Decoding what `quote` wrote gives back exactly the UTF-8 bytes of the
      token. */
  lemma {:induction false} QuoteDecodes(s: string)
    ensures PercentDecode(Quote(s)) == Utf8(s)
  {
    if s != [] {
      QuoteDecodes(s[1..]);
      if Unreserved(s[0]) {
        assert Quote(s) == [s[0]] + Quote(s[1..]);
        assert PercentDecode(Quote(s)) == Utf8Char(s[0]) + PercentDecode(Quote(s[1..]));
      } else {
        EscapesDecode(Utf8Char(s[0]), Quote(s[1..]));
      }
    }
  }

  /** The components of `urlparse(url)`. */
  datatype Url = Url(scheme: string, netloc: string, path: string, params: string, query: string, fragment: string)

  /** `needle in s` for strings. */
  predicate Contains(s: string, needle: string) {
    StartsWith(s, needle) || (s != [] && Contains(s[1..], needle))
  }

  /** `_apply_github_pat(url, pat)` */
  function ApplyGithubPat(url: Url, pat: Option<string>): (r: Url)
    ensures r.(netloc := url.netloc) == url
    ensures r.netloc == url.netloc || (pat.Some? && r.netloc == Quote(pat.value) + "@" + url.netloc)
  {
    if pat.None? || pat.value == "" then url
    else if url.scheme != "https" && url.scheme != "http" then url
    else if !Contains(Lower(url.netloc), "github.com") then url
    else url.(netloc := Quote(pat.value) + "@" + url.netloc)
  }

  /** The token is added exactly when there is one, the scheme is http or
      https and the lower-cased host part mentions `github.com`; then the
      text before the first `@` is the escaped token, which decodes back to
      the token's bytes, and the original host part follows unchanged. */
  lemma GithubPatApplied(url: Url, pat: Option<string>)
    ensures ApplyGithubPat(url, pat) != url <==>
      pat.Some? && pat.value != "" && (url.scheme == "https" || url.scheme == "http")
      && Contains(Lower(url.netloc), "github.com")
    ensures ApplyGithubPat(url, pat) != url ==>
      var n := ApplyGithubPat(url, pat).netloc;
      && '@' in n
      && PercentDecode(n[..IndexOf(n, '@')]) == Utf8(pat.value)
      && n[IndexOf(n, '@') + 1..] == url.netloc
  {
    if pat.Some? && pat.value != "" {
      var q := Quote(pat.value);
      var n := q + "@" + url.netloc;
      assert n[|q|] == '@' && n[..|q|] == q;
      assert '@' !in q;
      IndexOfAt(n, '@', |q|);
      QuoteDecodes(pat.value);
      assert n != url.netloc by {
        assert |n| > |url.netloc|;
      }
    }
  }
}
