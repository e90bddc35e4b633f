/** Click and open tracking for one recipient (`build_tracking`): a token derived from the
    lower-cased address, a click URL carrying UTM parameters and an open-pixel URL. */
module Tracking {
  import opened Common

  const BaseTrackingUrl: string := "https://lachicdesigns.com/"
  const OpenPixelBase: string := "https://lachicdesigns.com/email-open"
  const UtmSource: string := "email"
  const UtmMedium: string := "bulk"
  const UtmCampaign: string := "handbag_drop_2025_01"

  /** `hashlib.md5(data).hexdigest()`: a foreign one-way function, supplied by the caller. */
  type Digest = seq<Byte> -> string

  datatype Links = Links(trackingUrl: string, pixelUrl: string)

  // ---------------------------------------------------------------------------------------
  // Lower-casing and UTF-8

  function LowerChar(c: char): char
  {
    if 'A' <= c <= 'Z' then (c as int + 32) as char else c
  }

  /** `str.lower()` restricted to ASCII letters. */
  function Lower(s: string): (r: string)
    ensures |r| == |s|
  {
    if s == [] then [] else [LowerChar(s[0])] + Lower(s[1..])
  }

  function UpperChar(c: char): char
  {
    if 'a' <= c <= 'z' then (c as int - 32) as char else c
  }

  /** `str.upper()` restricted to ASCII letters. */
  function Upper(s: string): (r: string)
    ensures |r| == |s|
  {
    if s == [] then [] else [UpperChar(s[0])] + Upper(s[1..])
  }

  /** The UTF-8 encoding of one Unicode scalar value. */
  function Utf8Char(c: char): (b: seq<Byte>)
    ensures 1 <= |b| <= 4
    ensures |b| == 1 <==> c as int < 0x80
    ensures c as int < 0x80 ==> b == [c as int]
  {
    var n := c as int;
    if n < 0x80 then [n]
    else if n < 0x800 then [0xC0 + n / 0x40, 0x80 + n % 0x40]
    else if n < 0x10000 then [0xE0 + n / 0x1000, 0x80 + (n / 0x40) % 0x40, 0x80 + n % 0x40]
    else [0xF0 + n / 0x40000, 0x80 + (n / 0x1000) % 0x40, 0x80 + (n / 0x40) % 0x40, 0x80 + n % 0x40]
  }

  /** `s.encode("utf-8")`. */
  function Utf8(s: string): seq<Byte>
  {
    if s == [] then [] else Utf8Char(s[0]) + Utf8(s[1..])
  }

  // ---------------------------------------------------------------------------------------
  // urllib.parse.urlencode with its default quote_via=quote_plus and safe=''

  /** Bytes `quote` never escapes: letters, digits and `_.-~`. */
  predicate UnreservedByte(b: Byte)
  {
    ('A' as int <= b <= 'Z' as int) || ('a' as int <= b <= 'z' as int) ||
    ('0' as int <= b <= '9' as int) ||
    b == '_' as int || b == '.' as int || b == '-' as int || b == '~' as int
  }

  predicate UnreservedChar(c: char)
  {
    c as int < 0x80 && UnreservedByte(c as int)
  }

  /** Every character of `s` is unreserved. */
  predicate Unreserved(s: string)
  {
    forall i :: 0 <= i < |s| ==> UnreservedChar(s[i])
  }

  function HexUpper(d: int): char
    requires 0 <= d < 16
  {
    "0123456789ABCDEF"[d]
  }

  /** One byte as `quote_plus` writes it: kept, `+` for a space, otherwise `%XX`. */
  function QuoteByte(b: Byte): (r: string)
    ensures forall i :: 0 <= i < |r| ==> UnreservedChar(r[i]) || r[i] == '+' || r[i] == '%'
  {
    if UnreservedByte(b) then [b as char]
    else if b == 0x20 then "+"
    else ['%', HexUpper(b / 16), HexUpper(b % 16)]
  }

  function QuoteBytes(bs: seq<Byte>): (r: string)
    ensures forall i :: 0 <= i < |r| ==> UnreservedChar(r[i]) || r[i] == '+' || r[i] == '%'
  {
    if bs == [] then [] else QuoteByte(bs[0]) + QuoteBytes(bs[1..])
  }

  /** `urllib.parse.quote_plus(s)`: the UTF-8 bytes of `s`, each quoted. */
  function QuotePlus(s: string): (r: string)
    ensures forall i :: 0 <= i < |r| ==> UnreservedChar(r[i]) || r[i] == '+' || r[i] == '%'
  {
    if s == [] then [] else QuoteBytes(Utf8Char(s[0])) + QuotePlus(s[1..])
  }

  /** `urllib.parse.urlencode(params)` for a dict with string keys and values, in insertion order. */
  function UrlEncode(params: seq<(string, string)>): string
  {
    Join(EncodedFields(params), "&")
  }

  /** One parameter as `quote_plus(key) + "=" + quote_plus(value)`. */
  function EncodedField(key: string, value: string): string
  {
    QuotePlus(key) + "=" + QuotePlus(value)
  }

  function EncodedFields(params: seq<(string, string)>): (r: seq<string>)
    ensures |r| == |params|
  {
    if params == [] then [] else [EncodedField(params[0].0, params[0].1)] + EncodedFields(params[1..])
  }

  // ---------------------------------------------------------------------------------------
  // build_tracking

  /** The per-recipient token: the hex MD5 of the lower-cased address's UTF-8 bytes. */
  function Token(email: string, md5: Digest): string
  {
    md5(Utf8(Lower(email)))
  }

  function TrackingParams(token: string): seq<(string, string)>
  {
    [("utm_source", UtmSource), ("utm_medium", UtmMedium), ("utm_campaign", UtmCampaign), ("utm_content", token)]
  }

  /** `build_tracking`: the click link carries the four UTM fields, the digest last and
      quoted; the pixel link carries the bare digest as `id`. */
  function BuildTracking(email: string, md5: Digest): (r: Links)
    ensures r.trackingUrl == "https://lachicdesigns.com" + "/?" + TrackingQuery(QuotePlus(Token(email, md5)))
    ensures r.pixelUrl == OpenPixelBase + "?id=" + Token(email, md5)
  {
    var token := Token(email, md5);
    TrimmedBase();
    EncodedTrackingParams(token);
    Links(TrimEnd(BaseTrackingUrl, {'/'}) + "/?" + UrlEncode(TrackingParams(token)),
          OpenPixelBase + "?id=" + token)
  }

  /** What `hexdigest()` returns: 32 lower-case hexadecimal digits. */
  predicate HexDigest(d: string)
  {
    |d| == 32 && forall i :: 0 <= i < |d| ==> ('0' <= d[i] <= '9') || ('a' <= d[i] <= 'f')
  }

  // ---------------------------------------------------------------------------------------
  // A reader of query strings, used to state what a tracking link carries

  /** The text after the first `?` of a URL, if there is one. */
  function QueryOf(url: string): Option<string>
  {
    match Find(url, '?')
    case None => None
    case Some(i) => Some(url[i + 1..])
  }

  /** The value of the first `key=value` field whose key is `key`. */
  function Lookup(fields: seq<string>, key: string): Option<string>
  {
    if fields == [] then None
    else
      match Find(fields[0], '=')
      case Some(i) =>
        if fields[0][..i] == key then Some(fields[0][i + 1..]) else Lookup(fields[1..], key)
      case None => Lookup(fields[1..], key)
  }

  /** The raw value of query parameter `key` in `url`. */
  function QueryValue(url: string, key: string): Option<string>
  {
    match QueryOf(url)
    case None => None
    case Some(q) => Lookup(Split(q, '&'), key)
  }

  // ---------------------------------------------------------------------------------------
  // Properties

  lemma {:induction false} LowerIdempotent(s: string)
    ensures Lower(Lower(s)) == Lower(s)
  {
    if s != [] {
      LowerIdempotent(s[1..]);
      assert Lower(s)[1..] == Lower(s[1..]);
    }
  }

  /** Every character is ASCII, where Python's case mapping is the one modelled here. */
  predicate Ascii(s: string)
  {
    forall i :: 0 <= i < |s| ==> s[i] as int < 0x80
  }

  lemma {:induction false} LowerOfUpper(s: string)
    requires Ascii(s)
    ensures Lower(Upper(s)) == Lower(s)
  {
    if s != [] {
      LowerOfUpper(s[1..]);
      assert Upper(s)[1..] == Upper(s[1..]);
    }
  }

  /** Both links depend on the address only through its lower-cased form. */
  lemma TrackingIgnoresCase(e1: string, e2: string, md5: Digest)
    requires Lower(e1) == Lower(e2)
    ensures BuildTracking(e1, md5) == BuildTracking(e2, md5)
  {
  }

  /** `build_tracking(e) == build_tracking(e.lower())`, and for an ASCII address also
      `== build_tracking(e.upper())`. */
  lemma TrackingOfLowerAndUpper(email: string, md5: Digest)
    ensures BuildTracking(Lower(email), md5) == BuildTracking(email, md5)
    ensures Ascii(email) ==> BuildTracking(Upper(email), md5) == BuildTracking(email, md5)
  {
    LowerIdempotent(email);
    TrackingIgnoresCase(Lower(email), email, md5);
    if Ascii(email) {
      LowerOfUpper(email);
      TrackingIgnoresCase(Upper(email), email, md5);
    }
  }

  lemma {:induction false} QuotePlusKeepsUnreserved(s: string)
    requires Unreserved(s)
    ensures QuotePlus(s) == s
  {
    if s != [] {
      assert UnreservedChar(s[0]);
      assert Unreserved(s[1..]) by {
        forall i | 0 <= i < |s[1..]| ensures UnreservedChar(s[1..][i]) {
          assert s[1..][i] == s[i + 1];
        }
      }
      QuotePlusKeepsUnreserved(s[1..]);
      assert QuoteBytes(Utf8Char(s[0])) == [s[0]];
      assert s == [s[0]] + s[1..];
    }
  }

  /** A hex digest passes through `quote_plus` unchanged and holds no URL delimiter. */
  lemma HexDigestUnquoted(d: string)
    requires HexDigest(d)
    ensures QuotePlus(d) == d
    ensures '&' !in d && '=' !in d && '?' !in d && '/' !in d
  {
    assert Unreserved(d);
    QuotePlusKeepsUnreserved(d);
  }

  lemma TrimmedBase()
    ensures TrimEnd(BaseTrackingUrl, {'/'}) == "https://lachicdesigns.com"
  {
  }

  lemma FieldUnquoted(key: string, value: string)
    requires Unreserved(key) && Unreserved(value)
    ensures EncodedField(key, value) == key + "=" + value
  {
    QuotePlusKeepsUnreserved(key);
    QuotePlusKeepsUnreserved(value);
  }

  lemma EncodedFieldsFour(k0: string, v0: string, k1: string, v1: string, k2: string, v2: string,
                          k3: string, v3: string)
    ensures EncodedFields([(k0, v0), (k1, v1), (k2, v2), (k3, v3)]) ==
              [EncodedField(k0, v0), EncodedField(k1, v1), EncodedField(k2, v2), EncodedField(k3, v3)]
  {
    var ps := [(k0, v0), (k1, v1), (k2, v2), (k3, v3)];
    assert ps[1..][1..][1..] == [(k3, v3)];
    assert EncodedFields(ps[1..][1..][1..]) == [EncodedField(k3, v3)];
    assert ps[1..][1..] == [(k2, v2), (k3, v3)];
    assert EncodedFields(ps[1..][1..]) == [EncodedField(k2, v2), EncodedField(k3, v3)];
    assert ps[1..] == [(k1, v1), (k2, v2), (k3, v3)];
  }

  /** `urlencode` of four parameters whose keys and first three values need no quoting. */
  lemma UrlEncodeFour(k0: string, v0: string, k1: string, v1: string, k2: string, v2: string,
                      k3: string, v3: string)
    requires Unreserved(k0) && Unreserved(v0) && Unreserved(k1) && Unreserved(v1)
    requires Unreserved(k2) && Unreserved(v2) && Unreserved(k3)
    ensures UrlEncode([(k0, v0), (k1, v1), (k2, v2), (k3, v3)]) ==
              (k0 + "=" + v0) + "&" + ((k1 + "=" + v1) + "&" + ((k2 + "=" + v2) + "&" + (k3 + "=" + QuotePlus(v3))))
  {
    EncodedFieldsFour(k0, v0, k1, v1, k2, v2, k3, v3);
    FieldUnquoted(k0, v0);
    FieldUnquoted(k1, v1);
    FieldUnquoted(k2, v2);
    QuotePlusKeepsUnreserved(k3);
    var f0, f1, f2, f3 := k0 + "=" + v0, k1 + "=" + v1, k2 + "=" + v2, k3 + "=" + QuotePlus(v3);
    JoinFour(f0, f1, f2, f3, "&");
  }

  /** The query of a tracking link, with `content` as the encoded `utm_content` value. */
  function TrackingQuery(content: string): string
  {
    ("utm_source" + "=" + "email") + "&" + (("utm_medium" + "=" + "bulk") + "&" +
    (("utm_campaign" + "=" + "handbag_drop_2025_01") + "&" + ("utm_content" + "=" + content)))
  }

  lemma EncodedTrackingParams(token: string)
    ensures UrlEncode(TrackingParams(token)) == TrackingQuery(QuotePlus(token))
  {
    UrlEncodeFour("utm_source", UtmSource, "utm_medium", UtmMedium, "utm_campaign", UtmCampaign,
                  "utm_content", token);
  }

  /** No character `quote_plus` writes is a `/`, `?`, `&` or `=`. */
  lemma QuotedHasNoDelimiters(s: string)
    ensures '/' !in QuotePlus(s) && '?' !in QuotePlus(s) && '&' !in QuotePlus(s) && '=' !in QuotePlus(s)
  {
    var r := QuotePlus(s);
    forall i | 0 <= i < |r| ensures r[i] != '/' && r[i] != '?' && r[i] != '&' && r[i] != '=' {
      assert UnreservedChar(r[i]) || r[i] == '+' || r[i] == '%';
    }
  }

  /** An encoded query never holds a `?`, whatever the keys and values. */
  lemma {:induction false} UrlEncodeHasNoQuestionMark(params: seq<(string, string)>)
    ensures '?' !in UrlEncode(params)
  {
    var fields := EncodedFields(params);
    forall k | 0 <= k < |fields| ensures '?' !in fields[k] {
      EncodedFieldsAt(params, k);
      QuotedHasNoDelimiters(params[k].0);
      QuotedHasNoDelimiters(params[k].1);
    }
    JoinAvoids(fields, "&", '?');
  }

  lemma {:induction false} EncodedFieldsAt(params: seq<(string, string)>, k: nat)
    requires k < |params|
    ensures EncodedFields(params)[k] == EncodedField(params[k].0, params[k].1)
  {
    if k > 0 {
      EncodedFieldsAt(params[1..], k - 1);
    }
  }

  /** Stripping trailing slashes before appending `/?` means no `//?` can appear, for any base
      without a `?` and any query without one. */
  lemma NoSlashRunBeforeQuery(base: string, query: string)
    requires '?' !in base && '?' !in query
    ensures !Contains(TrimEnd(base, {'/'}) + "/?" + query, "//?")
  {
    var t := TrimEnd(base, {'/'});
    var u := t + "/?" + query;
    forall i: nat | i <= |u| ensures !ContainsAt(u, "//?", i) {
      if i + 3 <= |u| {
        if i + 2 < |t| {
          assert u[i + 2] == base[i + 2];
          assert u[i..i + 3][2] != '?';
        } else if i + 2 == |t| {
          assert u[i..i + 3][2] == '/';
        } else if i + 2 == |t| + 1 {
          assert u[i] == t[|t| - 1];
          assert u[i..i + 3][0] != '/';
        } else {
          assert u[i + 2] == query[i - |t|];
          assert u[i..i + 3][2] != '?';
        }
      }
    }
  }

  /** A tracking link never contains `//?` (the reason for the `rstrip("/")`). */
  lemma TrackingUrlHasNoDoubleSlash(email: string, md5: Digest)
    ensures !Contains(BuildTracking(email, md5).trackingUrl, "//?")
  {
    var query := UrlEncode(TrackingParams(Token(email, md5)));
    UrlEncodeHasNoQuestionMark(TrackingParams(Token(email, md5)));
    BaseHasNoQuery();
    NoSlashRunBeforeQuery(BaseTrackingUrl, query);
  }

  lemma BaseHasNoQuery()
    ensures '?' !in BaseTrackingUrl
  {
  }

  /** Reading a field: its key is everything before the first `=`. */
  lemma LookupFirst(k: string, v: string, rest: seq<string>, key: string)
    requires '=' !in k
    ensures Lookup([k + "=" + v] + rest, key) == if k == key then Some(v) else Lookup(rest, key)
  {
    var fields := [k + "=" + v] + rest;
    FindAfterPrefix(k, '=', v);
    assert fields[0] == k + ['='] + v;
    assert fields[0][..|k|] == k;
    assert fields[0][|k| + 1..] == v;
    assert fields[1..] == rest;
  }

  lemma QueryOfSplit(a: string, q: string)
    requires '?' !in a
    ensures QueryOf(a + ['?'] + q) == Some(q)
  {
    FindAfterPrefix(a, '?', q);
    assert (a + ['?'] + q)[|a| + 1..] == q;
  }

  lemma SplitFour(f0: string, f1: string, f2: string, f3: string)
    requires '&' !in f0 && '&' !in f1 && '&' !in f2 && '&' !in f3
    ensures Split(f0 + "&" + (f1 + "&" + (f2 + "&" + f3)), '&') == [f0, f1, f2, f3]
  {
    JoinFour(f0, f1, f2, f3, "&");
    SplitJoin([f0, f1, f2, f3], '&');
  }

  lemma LookupFour(k0: string, v0: string, k1: string, v1: string, k2: string, v2: string,
                   k3: string, v3: string)
    requires '=' !in k0 && '=' !in k1 && '=' !in k2 && '=' !in k3
    requires k0 != k1 && k0 != k2 && k0 != k3 && k1 != k2 && k1 != k3 && k2 != k3
    ensures Lookup([k0 + "=" + v0, k1 + "=" + v1, k2 + "=" + v2, k3 + "=" + v3], k0) == Some(v0)
    ensures Lookup([k0 + "=" + v0, k1 + "=" + v1, k2 + "=" + v2, k3 + "=" + v3], k1) == Some(v1)
    ensures Lookup([k0 + "=" + v0, k1 + "=" + v1, k2 + "=" + v2, k3 + "=" + v3], k2) == Some(v2)
    ensures Lookup([k0 + "=" + v0, k1 + "=" + v1, k2 + "=" + v2, k3 + "=" + v3], k3) == Some(v3)
  {
    var f0, f1, f2, f3 := k0 + "=" + v0, k1 + "=" + v1, k2 + "=" + v2, k3 + "=" + v3;
    var t3 := [f3] + [];
    var t2 := [f2] + t3;
    var t1 := [f1] + t2;
    FourFields(f0, f1, f2, f3);
    assert Lookup(t3, k3) == Some(v3) by { LookupFirst(k3, v3, [], k3); }
    assert Lookup(t2, k2) == Some(v2) && Lookup(t2, k3) == Some(v3) by {
      LookupFirst(k2, v2, t3, k2);
      LookupFirst(k2, v2, t3, k3);
    }
    assert Lookup(t1, k1) == Some(v1) && Lookup(t1, k2) == Some(v2) && Lookup(t1, k3) == Some(v3) by {
      LookupFirst(k1, v1, t2, k1);
      LookupFirst(k1, v1, t2, k2);
      LookupFirst(k1, v1, t2, k3);
    }
    LookupFirst(k0, v0, t1, k0);
    LookupFirst(k0, v0, t1, k1);
    LookupFirst(k0, v0, t1, k2);
    LookupFirst(k0, v0, t1, k3);
  }

  lemma FourFields<T>(a: T, b: T, c: T, d: T)
    ensures [a, b, c, d] == [a] + ([b] + ([c] + ([d] + [])))
  {
  }

  /** Reading the query of a tracking link gives back each UTM parameter, and the token. */
  lemma TrackingQueryRoundTrip(token: string)
    requires '&' !in token
    ensures Lookup(Split(TrackingQuery(token), '&'), "utm_source") == Some("email")
    ensures Lookup(Split(TrackingQuery(token), '&'), "utm_medium") == Some("bulk")
    ensures Lookup(Split(TrackingQuery(token), '&'), "utm_campaign") == Some("handbag_drop_2025_01")
    ensures Lookup(Split(TrackingQuery(token), '&'), "utm_content") == Some(token)
  {
    UtmLiteralsPlain();
    QueryFour("utm_source", "email", "utm_medium", "bulk", "utm_campaign", "handbag_drop_2025_01",
              "utm_content", token);
  }

  /** The fixed keys and values hold no delimiter, and the keys are distinct. */
  lemma UtmLiteralsPlain()
    ensures '=' !in "utm_source" && '&' !in "utm_source" && '&' !in "email"
    ensures '=' !in "utm_medium" && '&' !in "utm_medium" && '&' !in "bulk"
    ensures '=' !in "utm_campaign" && '&' !in "utm_campaign" && '&' !in "handbag_drop_2025_01"
    ensures '=' !in "utm_content" && '&' !in "utm_content"
    ensures "utm_source" != "utm_medium" && "utm_source" != "utm_campaign" && "utm_source" != "utm_content"
    ensures "utm_medium" != "utm_campaign" && "utm_medium" != "utm_content" && "utm_campaign" != "utm_content"
  {
    assert "utm_source"[4] != "utm_medium"[4] && "utm_source"[4] != "utm_campaign"[4];
    assert "utm_source"[4] != "utm_content"[4] && "utm_medium"[4] != "utm_campaign"[4];
    assert "utm_medium"[4] != "utm_content"[4] && |"utm_campaign"| != |"utm_content"|;
  }

  /** Four `key=value` fields joined by `&` read back: each key finds its own value. */
  lemma QueryFour(k0: string, v0: string, k1: string, v1: string, k2: string, v2: string,
                  k3: string, v3: string)
    requires '=' !in k0 && '=' !in k1 && '=' !in k2 && '=' !in k3
    requires '&' !in k0 && '&' !in k1 && '&' !in k2 && '&' !in k3
    requires '&' !in v0 && '&' !in v1 && '&' !in v2 && '&' !in v3
    requires k0 != k1 && k0 != k2 && k0 != k3 && k1 != k2 && k1 != k3 && k2 != k3
    ensures var q := (k0 + "=" + v0) + "&" + ((k1 + "=" + v1) + "&" + ((k2 + "=" + v2) + "&" + (k3 + "=" + v3)));
      Lookup(Split(q, '&'), k0) == Some(v0) && Lookup(Split(q, '&'), k1) == Some(v1) &&
      Lookup(Split(q, '&'), k2) == Some(v2) && Lookup(Split(q, '&'), k3) == Some(v3)
  {
    SplitFour(k0 + "=" + v0, k1 + "=" + v1, k2 + "=" + v2, k3 + "=" + v3);
    LookupFour(k0, v0, k1, v1, k2, v2, k3, v3);
  }

  lemma QueryAfterSlash(a: string, q: string)
    requires '?' !in a
    ensures QueryOf(a + "/?" + q) == Some(q)
  {
    assert a + "/?" + q == (a + "/") + ['?'] + q;
    QueryOfSplit(a + "/", q);
  }

  lemma PixelQuery(a: string, token: string)
    requires '?' !in a && '&' !in token
    ensures QueryValue(a + "?id=" + token, "id") == Some(token)
  {
    assert a + "?id=" + token == a + ['?'] + ("id" + "=" + token);
    QueryOfSplit(a, "id" + "=" + token);
    SplitWithoutSeparator("id" + "=" + token, '&');
    LookupFirst("id", token, [], "id");
  }

  lemma ReadTrackingUrl(url: string, token: string)
    requires url == "https://lachicdesigns.com" + "/?" + TrackingQuery(token)
    requires '&' !in token
    ensures QueryValue(url, "utm_source") == Some("email")
    ensures QueryValue(url, "utm_medium") == Some("bulk")
    ensures QueryValue(url, "utm_campaign") == Some("handbag_drop_2025_01")
    ensures QueryValue(url, "utm_content") == Some(token)
  {
    QueryAfterSlash("https://lachicdesigns.com", TrackingQuery(token));
    TrackingQueryRoundTrip(token);
  }

  /** The click link, read back as a URL, carries the campaign's UTM values and the token. */
  lemma TrackingLinkRoundTrip(email: string, md5: Digest)
    requires HexDigest(Token(email, md5))
    ensures QueryValue(BuildTracking(email, md5).trackingUrl, "utm_source") == Some(UtmSource)
    ensures QueryValue(BuildTracking(email, md5).trackingUrl, "utm_medium") == Some(UtmMedium)
    ensures QueryValue(BuildTracking(email, md5).trackingUrl, "utm_campaign") == Some(UtmCampaign)
    ensures QueryValue(BuildTracking(email, md5).trackingUrl, "utm_content") == Some(Token(email, md5))
  {
    var token := Token(email, md5);
    HexDigestUnquoted(token);
    ReadTrackingUrl(BuildTracking(email, md5).trackingUrl, token);
  }

  /** The open pixel, read back as a URL, carries the same token as the click link. */
  lemma PixelLinkRoundTrip(email: string, md5: Digest)
    requires HexDigest(Token(email, md5))
    ensures QueryValue(BuildTracking(email, md5).pixelUrl, "id") == Some(Token(email, md5))
  {
    HexDigestUnquoted(Token(email, md5));
    PixelQuery(OpenPixelBase, Token(email, md5));
  }
}
