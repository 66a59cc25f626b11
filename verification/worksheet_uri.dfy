/**
 * lib/worksheet-uri.ts: the URL-safe layer around a worksheet's base64
 * text. Encoding turns standard base64 into the "base64url" alphabet of
 * section 5 of RFC 4648 ('+' becomes '-', '/' becomes '_') and drops the
 * '=' padding; decoding maps the alphabet back and pads with '=' to a
 * multiple of four. `JSON.stringify` followed by the base64 byte codec is
 * the parameter `stringify`, and the base64 byte codec followed by
 * `JSON.parse` is the parameter `parse` (None when either throws).
 */
module WorksheetUri {
  import opened Options
  import opened Text
  import opened WorksheetTypes

  /** `s.replace(/<from>/g, <to>)` for one character. */
  function Substitute(s: string, from: char, to: char): (r: string)
    ensures |r| == |s|
  {
    seq(|s|, i requires 0 <= i < |s| => if s[i] == from then to else s[i])
  }

  /** `s.replace(/<c>/g, "")`: the other characters, in order. */
  function Delete(s: string, c: char): (r: string)
    ensures c !in r
    ensures forall x :: x in r <==> x in s && x != c
  {
    if s == [] then [] else (if s[0] == c then [] else [s[0]]) + Delete(s[1..], c)
  }

  /** The characters of the standard base64 alphabet (without the '=' pad). */
  predicate IsBase64Char(c: char)
  {
    ('A' <= c <= 'Z') || ('a' <= c <= 'z') || ('0' <= c <= '9') || c == '+' || c == '/'
  }

  /** The characters of the base64url alphabet. */
  predicate IsBase64UrlChar(c: char)
  {
    ('A' <= c <= 'Z') || ('a' <= c <= 'z') || ('0' <= c <= '9') || c == '-' || c == '_'
  }

  /**
   * Standard base64 text with `pad` '=' signs: a length that is a multiple
   * of four, alphabet characters, then at most two '=' at the end.
   */
  predicate StandardBase64(s: string, pad: nat)
  {
    |s| % 4 == 0 && pad <= 2 && pad <= |s|
    && (forall i :: 0 <= i < |s| - pad ==> IsBase64Char(s[i]))
    && (forall i :: |s| - pad <= i < |s| ==> s[i] == '=')
  }

  /** The replace chain of `encodeWorksheetToURI`. */
  function ToBase64Url(base64: string): (r: string)
    ensures '+' !in r && '/' !in r && '=' !in r
  {
    var r := Delete(Substitute(Substitute(base64, '+', '-'), '/', '_'), '=');
    assert '+' !in Substitute(Substitute(base64, '+', '-'), '/', '_');
    r
  }

  /** `encodeWorksheetToURI`. */
  function EncodeWorksheetToURI(worksheet: Worksheet, stringify: Worksheet -> string): (r: string)
    ensures '+' !in r && '/' !in r && '=' !in r
  {
    ToBase64Url(stringify(worksheet))
  }

  /** The replace chain at the start of `decodeWorksheetFromURI`. */
  function FromBase64Url(encoded: string): (r: string)
    ensures |r| == |encoded|
  {
    Substitute(Substitute(encoded, '-', '+'), '_', '/')
  }

  /** How many '=' the padding loop appends to a text of length n. */
  function PadCount(n: nat): (k: nat)
    ensures k < 4 && (n + k) % 4 == 0
  {
    (4 - n % 4) % 4
  }

  /** The text after the padding loop. */
  function Padded(s: string): (r: string)
    ensures |s| <= |r| < |s| + 4 && |r| % 4 == 0 && r[..|s|] == s
    ensures forall i :: |s| <= i < |r| ==> r[i] == '='
  {
    s + Repeat('=', PadCount(|s|))
  }

  /** `while (base64.length % 4) { base64 += "=" }`. */
  method PadToQuadruple(s: string) returns (base64: string)
    ensures base64 == Padded(s)
  {
    base64 := s;
    while |base64| % 4 != 0
      invariant |s| <= |base64| <= |s| + PadCount(|s|)
      invariant base64 == s + Repeat('=', |base64| - |s|)
      decreases |s| + PadCount(|s|) - |base64|
    {
      PadStep(|s|, |base64| - |s|);
      RepeatSnoc('=', |base64| - |s|);
      base64 := base64 + "=";
    }
    PadStop(|s|, |base64| - |s|);
  }

  /** Before PadCount(n) signs the length is not yet a multiple of four. */
  lemma {:induction false} PadStep(n: nat, k: nat)
    requires k <= PadCount(n) && (n + k) % 4 != 0
    ensures k < PadCount(n)
  {
  }

  /** A multiple of four is first reached after exactly PadCount(n) signs. */
  lemma {:induction false} PadStop(n: nat, k: nat)
    requires k <= PadCount(n) && (n + k) % 4 == 0
    ensures k == PadCount(n)
  {
  }

  lemma {:induction false} RepeatSnoc(c: char, n: nat)
    ensures Repeat(c, n) + [c] == Repeat(c, n + 1)
  {
  }

  /** A JSON value, as far as the required-field check looks at it. */
  datatype JsValue =
    | JsNull
    | JsBool(b: bool)
    | JsNumber(n: int)
    | JsString(s: string)
    | JsArray(items: seq<JsValue>)
    | JsObject(fields: map<string, JsValue>)

  /** JavaScript truthiness (NaN is not a value here). */
  predicate Truthy(v: JsValue)
  {
    match v
    case JsNull => false
    case JsBool(b) => b
    case JsNumber(n) => n != 0
    case JsString(s) => |s| > 0
    case JsArray(_) => true
    case JsObject(_) => true
  }

  /**
   * `worksheet.id && worksheet.title && Array.isArray(worksheet.problems)`:
   * an object whose id and title are truthy and whose problems is an array.
   * A missing property reads as undefined, which is falsy.
   */
  predicate HasRequiredFields(v: JsValue)
  {
    v.JsObject?
    && "id" in v.fields && Truthy(v.fields["id"])
    && "title" in v.fields && Truthy(v.fields["title"])
    && "problems" in v.fields && v.fields["problems"].JsArray?
  }

  /** What `decodeWorksheetFromURI` returns. */
  function DecodedWorksheet(encoded: string, parse: string -> Option<JsValue>): (r: Option<JsValue>)
    ensures r.Some? <==> parse(Padded(FromBase64Url(encoded))).Some?
                         && HasRequiredFields(parse(Padded(FromBase64Url(encoded))).value)
    ensures r.Some? ==> r == parse(Padded(FromBase64Url(encoded)))
  {
    match parse(Padded(FromBase64Url(encoded)))
    case None => None
    case Some(v) => if HasRequiredFields(v) then Some(v) else None
  }

  /** `decodeWorksheetFromURI`, with its padding loop. */
  method DecodeWorksheetFromURI(encoded: string, parse: string -> Option<JsValue>) returns (r: Option<JsValue>)
    ensures r == DecodedWorksheet(encoded, parse)
  {
    var base64 := PadToQuadruple(FromBase64Url(encoded));
    var parsed := parse(base64);
    if parsed.None? {
      return None;
    }
    var worksheet := parsed.value;
    if !HasRequiredFields(worksheet) {
      return None;
    }
    return Some(worksheet);
  }

  /** Deleting a character that does not occur changes nothing. */
  lemma {:induction false} DeleteAbsent(s: string, c: char)
    requires c !in s
    ensures Delete(s, c) == s
  {
    if s != [] {
      DeleteAbsent(s[1..], c);
      assert s == [s[0]] + s[1..];
    }
  }

  /** Deleting distributes over concatenation. */
  lemma {:induction false} DeleteAppend(a: string, b: string, c: char)
    ensures Delete(a + b, c) == Delete(a, c) + Delete(b, c)
  {
    if a != [] {
      DeleteAppend(a[1..], b, c);
      assert (a + b)[1..] == a[1..] + b;
    } else {
      assert a + b == b;
    }
  }

  /** Deleting a character from a run of it leaves nothing. */
  lemma {:induction false} DeleteRun(c: char, n: nat)
    ensures Delete(Repeat(c, n), c) == []
  {
    if n > 0 {
      DeleteRun(c, n - 1);
      assert Repeat(c, n)[1..] == Repeat(c, n - 1);
    }
  }

  /** Substituting distributes over concatenation. */
  lemma {:induction false} SubstituteAppend(a: string, b: string, from: char, to: char)
    ensures Substitute(a + b, from, to) == Substitute(a, from, to) + Substitute(b, from, to)
  {
  }

  /**
   * Round trip of the URL-safe layer: for standard base64 text, encoding
   * and then the decoder's alphabet mapping and padding give back the
   * original text.
   */
  lemma {:induction false} UrlSafeRoundTrip(s: string, pad: nat)
    requires StandardBase64(s, pad)
    ensures Padded(FromBase64Url(ToBase64Url(s))) == s
  {
    var body, tail := s[..|s| - pad], s[|s| - pad..];
    assert s == body + tail;
    assert tail == Repeat('=', pad);
    var url := Substitute(Substitute(body, '+', '-'), '/', '_');
    SubstituteAppend(body, tail, '+', '-');
    SubstituteAppend(Substitute(body, '+', '-'), Substitute(tail, '+', '-'), '/', '_');
    assert Substitute(Substitute(tail, '+', '-'), '/', '_') == tail;
    assert '=' !in url;
    DeleteAppend(url, tail, '=');
    DeleteAbsent(url, '=');
    DeleteRun('=', pad);
    assert ToBase64Url(s) == url;
    assert FromBase64Url(url) == body;
    PadOfBody(|body|, pad, |s|);
  }

  lemma {:induction false} PadOfBody(b: nat, pad: nat, n: nat)
    requires n % 4 == 0 && pad <= 2 && b + pad == n
    ensures PadCount(b) == pad
  {
  }

  /**
   * The other direction: a base64url text decodes to padded standard
   * base64, and encoding that again gives back the same text.
   */
  lemma {:induction false} UrlTextRoundTrip(u: string)
    requires forall i :: 0 <= i < |u| ==> IsBase64UrlChar(u[i])
    ensures ToBase64Url(Padded(FromBase64Url(u))) == u
  {
    var std := FromBase64Url(u);
    var tail := Repeat('=', PadCount(|u|));
    SubstituteAppend(std, tail, '+', '-');
    SubstituteAppend(Substitute(std, '+', '-'), Substitute(tail, '+', '-'), '/', '_');
    assert Substitute(Substitute(tail, '+', '-'), '/', '_') == tail;
    assert Substitute(Substitute(std, '+', '-'), '/', '_') == u;
    DeleteAppend(u, tail, '=');
    assert '=' !in u by {
      forall i | 0 <= i < |u| ensures u[i] != '=' { assert IsBase64UrlChar(u[i]); }
    }
    DeleteAbsent(u, '=');
    DeleteRun('=', PadCount(|u|));
  }

  /**
   * Decoding what was encoded: when the serialised worksheet is standard
   * base64 and parses to a record with the required fields, the decoder
   * returns that record.
   */
  lemma {:induction false} EncodeThenDecode(worksheet: Worksheet, stringify: Worksheet -> string, parse: string -> Option<JsValue>,
                         pad: nat, record: JsValue)
    requires StandardBase64(stringify(worksheet), pad)
    requires parse(stringify(worksheet)) == Some(record) && HasRequiredFields(record)
    ensures DecodedWorksheet(EncodeWorksheetToURI(worksheet, stringify), parse) == Some(record)
  {
    UrlSafeRoundTrip(stringify(worksheet), pad);
  }

  /** `generateShareableURL`: an empty or absent base falls back to the page origin. */
  function GenerateShareableURL(worksheet: Worksheet, stringify: Worksheet -> string,
                                baseURL: Option<string>, origin: string): (url: string)
    ensures var base := if baseURL.Some? && |baseURL.value| > 0 then baseURL.value else origin;
            url == base + "/worksheet/shared/" + EncodeWorksheetToURI(worksheet, stringify)
  {
    var encoded := EncodeWorksheetToURI(worksheet, stringify);
    var base := if baseURL.Some? && |baseURL.value| > 0 then baseURL.value else origin;
    base + "/worksheet/shared/" + encoded
  }

  /** The text after the last '/' (all of it when there is none). */
  function LastSegment(url: string): (r: string)
    ensures '/' !in r
  {
    if url == [] then []
    else if url[|url| - 1] == '/' then []
    else LastSegment(url[..|url| - 1]) + [url[|url| - 1]]
  }

  /** A segment without '/' is what follows the last '/'. */
  lemma {:induction false} LastSegmentOf(prefix: string, segment: string)
    requires '/' !in segment
    ensures LastSegment(prefix + "/" + segment) == segment
  {
    if segment == [] {
      assert prefix + "/" + segment == prefix + "/";
    } else {
      var init := segment[..|segment| - 1];
      LastSegmentOf(prefix, init);
      assert (prefix + "/" + segment)[..|prefix + "/" + segment| - 1] == prefix + "/" + init;
      assert init + [segment[|segment| - 1]] == segment;
    }
  }

  /**
   * The share URL carries the encoded worksheet as its last path segment,
   * so the page that reads that segment back decodes the same record.
   */
  lemma {:induction false} SharedURLRoundTrip(worksheet: Worksheet, stringify: Worksheet -> string, parse: string -> Option<JsValue>,
                           baseURL: Option<string>, origin: string, pad: nat, record: JsValue)
    requires StandardBase64(stringify(worksheet), pad)
    requires parse(stringify(worksheet)) == Some(record) && HasRequiredFields(record)
    ensures LastSegment(GenerateShareableURL(worksheet, stringify, baseURL, origin))
            == EncodeWorksheetToURI(worksheet, stringify)
    ensures DecodedWorksheet(LastSegment(GenerateShareableURL(worksheet, stringify, baseURL, origin)), parse)
            == Some(record)
  {
    var base := if baseURL.Some? && |baseURL.value| > 0 then baseURL.value else origin;
    var encoded := EncodeWorksheetToURI(worksheet, stringify);
    assert base + "/worksheet/shared/" + encoded == (base + "/worksheet/shared") + "/" + encoded;
    LastSegmentOf(base + "/worksheet/shared", encoded);
    EncodeThenDecode(worksheet, stringify, parse, pad, record);
  }
}
