/**
 * The persisted form of the UI configuration: `JSON.stringify` of the config object and the part
 * of `JSON.parse` the store relies on, for a flat object whose values are strings.
 */
module ConfigCodec {
  import opened Wrappers

  /** The configuration the UI persists. `bearerToken` is always present in this store. */
  datatype AppConfig = AppConfig(encoreApiUrl: string, bearerToken: string)

  const UrlKey := "encoreApiUrl"
  const TokenKey := "bearerToken"

  // ---------------------------------------------------------------------------
  // Serialising

  /** A lower-case hexadecimal digit, as `JSON.stringify` writes them. */
  function HexDigit(n: nat): (c: char)
    requires n < 16
  {
    if n < 10 then ('0' as int + n) as char else ('a' as int + n - 10) as char
  }

  /** The value of a hexadecimal digit of either case. */
  function HexValue(c: char): (r: Option<nat>)
    ensures r.Some? ==> r.value < 16
  {
    if '0' <= c <= '9' then Some(c as int - '0' as int)
    else if 'a' <= c <= 'f' then Some(c as int - 'a' as int + 10)
    else if 'A' <= c <= 'F' then Some(c as int - 'A' as int + 10)
    else None
  }

  lemma HexRoundTrip(n: nat)
    requires n < 16
    ensures HexValue(HexDigit(n)) == Some(n)
  {
  }

  /** How one character of a string value is written inside the quotes. */
  function EscapeChar(c: char): (r: string)
    ensures r != []
  {
    if c == '"' then "\\\""
    else if c == '\\' then "\\\\"
    else if c == '\U{8}' then "\\b"
    else if c == '\U{C}' then "\\f"
    else if c == '\n' then "\\n"
    else if c == '\r' then "\\r"
    else if c == '\t' then "\\t"
    else if c < ' ' then "\\u00" + [HexDigit(c as int / 16), HexDigit(c as int % 16)]
    else [c]
  }

  function EscapeAll(s: string): string {
    if s == [] then [] else EscapeChar(s[0]) + EscapeAll(s[1..])
  }

  /** A string literal. */
  function Quote(s: string): string {
    "\"" + EscapeAll(s) + "\""
  }

  /** A character `JSON.stringify` writes as itself. */
  predicate Plain(c: char) {
    c >= ' ' && c != '"' && c != '\\'
  }

  predicate PlainKey(key: string) {
    forall i :: 0 <= i < |key| ==> Plain(key[i])
  }

  /** One object member, `"key":"value"`; the key is written verbatim, as a plain key is. */
  function Member(key: string, value: string): string {
    "\"" + key + "\":" + Quote(value)
  }

  /** `JSON.stringify(config)`: the two keys in their insertion order, no whitespace. */
  function Serialize(c: AppConfig): (r: string)
    ensures r != "" && r[0] == '{'
  {
    "{" + Member(UrlKey, c.encoreApiUrl) + "," + Member(TokenKey, c.bearerToken) + "}"
  }

  // ---------------------------------------------------------------------------
  // Parsing

  predicate IsJsonWhitespace(c: char) {
    c == ' ' || c == '\t' || c == '\n' || c == '\r'
  }

  function SkipWs(s: string): (r: string)
    ensures |r| <= |s|
    ensures r == [] || !IsJsonWhitespace(r[0])
  {
    if s != [] && IsJsonWhitespace(s[0]) then SkipWs(s[1..]) else s
  }

  /**
   * The body of a string literal, starting just after its opening quote: the decoded value and
   * what follows the closing quote. Unescaped control characters, unknown escapes and escapes of
   * surrogate code units are rejected.
   */
  function ParseStringBody(s: string): (r: Option<(string, string)>)
    ensures r.Some? ==> |r.value.1| < |s|
    decreases |s|
  {
    if s == [] then None
    else if s[0] == '"' then Some(("", s[1..]))
    else if s[0] < ' ' then None
    else if s[0] != '\\' then Prepend(s[0], ParseStringBody(s[1..]))
    else if |s| < 2 then None
    else if s[1] == '"' then Prepend('"', ParseStringBody(s[2..]))
    else if s[1] == '\\' then Prepend('\\', ParseStringBody(s[2..]))
    else if s[1] == '/' then Prepend('/', ParseStringBody(s[2..]))
    else if s[1] == 'b' then Prepend('\U{8}', ParseStringBody(s[2..]))
    else if s[1] == 'f' then Prepend('\U{C}', ParseStringBody(s[2..]))
    else if s[1] == 'n' then Prepend('\n', ParseStringBody(s[2..]))
    else if s[1] == 'r' then Prepend('\r', ParseStringBody(s[2..]))
    else if s[1] == 't' then Prepend('\t', ParseStringBody(s[2..]))
    else if s[1] == 'u' && |s| >= 6 then
      match CodeUnit(s[2], s[3], s[4], s[5])
      case None => None
      case Some(v) =>
        if 0xD800 <= v < 0xE000 then None else Prepend(v as char, ParseStringBody(s[6..]))
    else None
  }

  function Prepend(c: char, r: Option<(string, string)>): (p: Option<(string, string)>)
    ensures r.Some? ==> p == Some(([c] + r.value.0, r.value.1))
    ensures r.None? ==> p.None?
  {
    match r
    case None => None
    case Some((v, rest)) => Some(([c] + v, rest))
  }

  /** The 16-bit value of four hexadecimal digits. */
  function CodeUnit(a: char, b: char, c: char, d: char): (r: Option<nat>)
    ensures r.Some? ==> r.value < 0x1_0000
  {
    match (HexValue(a), HexValue(b), HexValue(c), HexValue(d))
    case (Some(x), Some(y), Some(z), Some(w)) => Some(((x * 16 + y) * 16 + z) * 16 + w)
    case _ => None
  }

  /** One `"key": "value"` member and the whitespace after it: key, value and what follows. */
  function ParseMember(s: string): (r: Option<(string, string, string)>)
    ensures r.Some? ==> |r.value.2| < |s|
  {
    if s == [] || s[0] != '"' then None
    else match ParseStringBody(s[1..])
      case None => None
      case Some((key, r1)) =>
        var r2 := SkipWs(r1);
        if r2 == [] || r2[0] != ':' then None
        else
          var r3 := SkipWs(r2[1..]);
          if r3 == [] || r3[0] != '"' then None
          else match ParseStringBody(r3[1..])
            case None => None
            case Some((value, r4)) => Some((key, value, SkipWs(r4)))
  }

  /** The members of an object, starting at a key's opening quote; a later duplicate key wins. */
  function ParseMembers(s: string, acc: map<string, string>): (r: Option<(map<string, string>, string)>)
    ensures r.Some? ==> |r.value.1| < |s|
    decreases |s|
  {
    match ParseMember(s)
    case None => None
    case Some((key, value, rest)) =>
      var acc' := acc[key := value];
      if rest != [] && rest[0] == ',' then ParseMembers(SkipWs(rest[1..]), acc')
      else if rest != [] && rest[0] == '}' then Some((acc', rest[1..]))
      else None
  }

  /**
   * `JSON.parse` of a saved entry, for a flat object whose values are strings; `None` is a parse
   * failure (and stands for every other JSON shape, see the README).
   */
  function Parse(text: string): (r: Option<map<string, string>>) {
    var t := SkipWs(text);
    if t == [] || t[0] != '{' then None else ParseObjectBody(SkipWs(t[1..]))
  }

  /** An object after its opening brace and the whitespace that follows it. */
  function ParseObjectBody(u: string): (r: Option<map<string, string>>) {
    if u != [] && u[0] == '}' then Finish(map[], u[1..])
    else match ParseMembers(u, map[])
      case None => None
      case Some((m, rest)) => Finish(m, rest)
  }

  /** Only whitespace may follow the value. */
  function Finish(m: map<string, string>, rest: string): (r: Option<map<string, string>>) {
    if SkipWs(rest) == [] then Some(m) else None
  }

  // ---------------------------------------------------------------------------
  // Round trip

  /** A two-character escape reads back as its character. */
  lemma ShortEscapeRoundTrip(c: char, tail: string)
    requires c == '"' || c == '\\' || c == '\U{8}' || c == '\U{C}' || c == '\n' || c == '\r' || c == '\t'
    ensures ParseStringBody(EscapeChar(c) + tail) == Prepend(c, ParseStringBody(tail))
  {
    var s := EscapeChar(c) + tail;
    assert s[2..] == tail;
  }

  /** A `\u00xx` escape of a control character reads back as that character. */
  lemma UnicodeEscapeRoundTrip(c: char, tail: string)
    requires c < ' ' && c != '\U{8}' && c != '\U{C}' && c != '\n' && c != '\r' && c != '\t'
    ensures ParseStringBody(EscapeChar(c) + tail) == Prepend(c, ParseStringBody(tail))
  {
    var s := EscapeChar(c) + tail;
    var hi, lo := c as int / 16, c as int % 16;
    HexRoundTrip(hi);
    HexRoundTrip(lo);
    assert s[..6] == "\\u00" + [HexDigit(hi), HexDigit(lo)];
    assert CodeUnit(s[2], s[3], s[4], s[5]) == Some(c as int);
    assert s[6..] == tail;
  }

  /** Every character's written form reads back as the character. */
  lemma CharRoundTrip(c: char, tail: string)
    ensures ParseStringBody(EscapeChar(c) + tail) == Prepend(c, ParseStringBody(tail))
  {
    if c == '"' || c == '\\' || c == '\U{8}' || c == '\U{C}' || c == '\n' || c == '\r' || c == '\t' {
      ShortEscapeRoundTrip(c, tail);
    } else if c < ' ' {
      UnicodeEscapeRoundTrip(c, tail);
    } else {
      assert (EscapeChar(c) + tail)[1..] == tail;
    }
  }

  /** A written string value reads back as itself, and parsing resumes right after its closing quote. */
  lemma {:induction false} StringRoundTrip(x: string, rest: string)
    ensures ParseStringBody(EscapeAll(x) + "\"" + rest) == Some((x, rest))
  {
    if x == [] {
      assert EscapeAll(x) + "\"" + rest == "\"" + rest;
    } else {
      var tail := EscapeAll(x[1..]) + "\"" + rest;
      StringRoundTrip(x[1..], rest);
      CharRoundTrip(x[0], tail);
      EscapeAllCons(x, rest);
      assert x == [x[0]] + x[1..];
    }
  }

  lemma EscapeAllCons(x: string, rest: string)
    requires x != []
    ensures EscapeAll(x) + "\"" + rest == EscapeChar(x[0]) + (EscapeAll(x[1..]) + "\"" + rest)
  {
    var e, t := EscapeChar(x[0]), EscapeAll(x[1..]);
    assert EscapeAll(x) == e + t;
    assert (e + t) + "\"" + rest == e + (t + "\"" + rest);
  }

  lemma QuoteRoundTrip(x: string, rest: string)
    ensures Quote(x) + rest != [] && (Quote(x) + rest)[0] == '"'
    ensures ParseStringBody((Quote(x) + rest)[1..]) == Some((x, rest))
  {
    var e := EscapeAll(x);
    var t := e + "\"" + rest;
    var q := Quote(x) + rest;
    assert q == "\"" + t by {
      assert Quote(x) == "\"" + e + "\"";
    }
    assert q[1..] == t;
    StringRoundTrip(x, rest);
  }

  lemma Regroup5(a: string, b: string, c: string, d: string, e: string)
    ensures a + b + c + d + e == a + (b + (c + (d + e)))
  {
  }

  /** A plain key reads back as itself. */
  lemma {:induction false} PlainRoundTrip(x: string, rest: string)
    requires PlainKey(x)
    ensures ParseStringBody(x + "\"" + rest) == Some((x, rest))
  {
    var s := x + "\"" + rest;
    if x == [] {
      assert s == "\"" + rest;
    } else {
      PlainRoundTrip(x[1..], rest);
      assert s[1..] == x[1..] + "\"" + rest;
      assert x == [x[0]] + x[1..];
    }
  }

  lemma MemberShape(key: string, value: string, tail: string)
    ensures Member(key, value) + tail == "\"" + (key + "\"" + (":" + (Quote(value) + tail)))
  {
    var q := Quote(value);
    assert "\"" + key + "\":" + q + tail == "\"" + (key + "\"" + (":" + (q + tail)));
  }

  /** A written member reads back as its key and value. */
  lemma MemberRoundTrip(key: string, value: string, tail: string)
    requires PlainKey(key)
    requires tail == [] || !IsJsonWhitespace(tail[0])
    ensures ParseMember(Member(key, value) + tail) == Some((key, value, tail))
  {
    var r3 := Quote(value) + tail;
    var r1 := ":" + r3;
    var s := Member(key, value) + tail;
    MemberShape(key, value, tail);
    PlainRoundTrip(key, r1);
    assert ParseStringBody(s[1..]) == Some((key, r1));
    assert SkipWs(r1) == r1;
    assert r1[1..] == r3;
    QuoteRoundTrip(value, tail);
    assert SkipWs(r3) == r3;
    assert ParseStringBody(r3[1..]) == Some((value, tail));
    assert SkipWs(tail) == tail;
  }

  /** A last member closes the object. */
  lemma LastMemberRoundTrip(k: string, v: string, acc: map<string, string>)
    requires PlainKey(k)
    ensures ParseMembers(Member(k, v) + "}", acc) == Some((acc[k := v], ""))
  {
    MemberRoundTrip(k, v, "}");
  }

  /** A member followed by a comma continues with the next member. */
  lemma NextMemberRoundTrip(k: string, v: string, rest: string, acc: map<string, string>)
    requires PlainKey(k)
    ensures ParseMembers(Member(k, v) + ("," + rest), acc) == ParseMembers(SkipWs(rest), acc[k := v])
  {
    MemberRoundTrip(k, v, "," + rest);
    assert ("," + rest)[1..] == rest;
  }

  lemma MemberStartsWithQuote(k: string, v: string, tail: string)
    ensures Member(k, v) + tail != [] && (Member(k, v) + tail)[0] == '"'
  {
  }

  /** An object whose members all parse, with nothing after its closing brace. */
  lemma ParseWholeObject(body: string, m: map<string, string>)
    requires body != [] && body[0] == '"'
    requires ParseMembers(body, map[]) == Some((m, ""))
    ensures Parse("{" + body) == Some(m)
  {
    ObjectBodyParses(body, m);
    OpenBrace(body);
  }

  lemma ObjectBodyParses(body: string, m: map<string, string>)
    requires body != [] && body[0] == '"'
    requires ParseMembers(body, map[]) == Some((m, ""))
    ensures ParseObjectBody(body) == Some(m)
  {
    assert SkipWs("") == "";
  }

  lemma OpenBrace(body: string)
    requires body != [] && body[0] == '"'
    ensures Parse("{" + body) == ParseObjectBody(body)
  {
    var text := "{" + body;
    assert SkipWs(text) == text;
    assert text[1..] == body;
    assert SkipWs(body) == body;
  }

  /** An object of two written members reads back as those two entries; the later key wins. */
  lemma TwoMembersRoundTrip(k1: string, v1: string, k2: string, v2: string)
    requires PlainKey(k1) && PlainKey(k2)
    ensures Parse("{" + Member(k1, v1) + "," + Member(k2, v2) + "}") == Some(map[k1 := v1, k2 := v2])
  {
    var second := Member(k2, v2) + "}";
    var body := Member(k1, v1) + ("," + second);
    Regroup5("{", Member(k1, v1), ",", Member(k2, v2), "}");
    MemberStartsWithQuote(k1, v1, "," + second);
    MemberStartsWithQuote(k2, v2, "}");
    assert SkipWs(second) == second;
    NextMemberRoundTrip(k1, v1, second, map[]);
    LastMemberRoundTrip(k2, v2, map[k1 := v1]);
    ParseWholeObject(body, map[k1 := v1, k2 := v2]);
  }

  /** The saved entry reads back as the configuration it was written from. */
  lemma SerializeRoundTrip(c: AppConfig)
    ensures Parse(Serialize(c)) == Some(map[UrlKey := c.encoreApiUrl, TokenKey := c.bearerToken])
  {
    TwoMembersRoundTrip(UrlKey, c.encoreApiUrl, TokenKey, c.bearerToken);
  }
}
