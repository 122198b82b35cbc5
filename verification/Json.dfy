/** The part of encoding/json that marshals a JSON-RPC call; string escaping is section 7 of RFC 8259. */
module Json {
  import opened Outcomes
  import opened Text

  datatype Json = JString(s: string) | JInt(i: int) | JBool(b: bool) | JArray(items: seq<Json>)

  // ---- strings ----

  predicate Continuation(c: char) {
    '\U{80}' <= c <= '\U{BF}'
  }

  /** The length of the well-formed multi-byte UTF-8 sequence at the front of s, 0 when there is none. */
  function RuneLength(s: string): (n: nat)
    ensures n <= |s| && (n == 0 || 2 <= n <= 4)
  {
    if |s| >= 2 && '\U{C2}' <= s[0] <= '\U{DF}' && Continuation(s[1]) then 2
    else if |s| >= 3 && '\U{E0}' <= s[0] <= '\U{EF}' && Continuation(s[1]) && Continuation(s[2])
            && (s[0] == '\U{E0}' ==> s[1] >= '\U{A0}') && (s[0] == '\U{ED}' ==> s[1] <= '\U{9F}') then 3
    else if |s| >= 4 && '\U{F0}' <= s[0] <= '\U{F4}' && Continuation(s[1]) && Continuation(s[2]) && Continuation(s[3])
            && (s[0] == '\U{F0}' ==> s[1] >= '\U{90}') && (s[0] == '\U{F4}' ==> s[1] <= '\U{8F}') then 4
    else 0
  }

  function HexDigit(d: nat): char
    requires d < 16
  {
    if d < 10 then ('0' as int + d) as char else ('a' as int + d - 10) as char
  }

  /** How json.Marshal writes one ASCII character of a string, HTML escaping included. */
  function EscapeAscii(c: char): string
    requires c < '\U{80}'
  {
    if c == '\\' || c == '\"' then ['\\', c]
    else if c == '\U{08}' then "\\b"
    else if c == '\U{0C}' then "\\f"
    else if c == '\n' then "\\n"
    else if c == '\r' then "\\r"
    else if c == '\t' then "\\t"
    else if c < ' ' || c == '<' || c == '>' || c == '&' then
      "\\u00" + [HexDigit(c as int / 16), HexDigit(c as int % 16)]
    else [c]
  }

  /** How many bytes of s json.Marshal takes as the next character. */
  function UnitLength(s: string): (n: nat)
    requires s != ""
    ensures 1 <= n <= |s|
  {
    if s[0] < '\U{80}' || RuneLength(s) == 0 then 1 else RuneLength(s)
  }

  predicate LineSeparator(s: string) {
    |s| >= 3 && s[0] == '\U{E2}' && s[1] == '\U{80}' && (s[2] == '\U{A8}' || s[2] == '\U{A9}')
  }

  function EscapeUnit(s: string): string
    requires s != ""
  {
    if s[0] < '\U{80}' then EscapeAscii(s[0])
    else if RuneLength(s) == 0 then "\\ufffd"
    else if LineSeparator(s) then (if s[2] == '\U{A8}' then "\\u2028" else "\\u2029")
    else s[..RuneLength(s)]
  }

  function Escape(s: string): string {
    if s == "" then "" else EscapeUnit(s) + Escape(s[UnitLength(s)..])
  }

  function Quote(s: string): string {
    "\"" + Escape(s) + "\""
  }

  /** s with every byte that is not part of well-formed UTF-8 replaced by U+FFFD. */
  function Sanitized(s: string): string {
    if s == "" then ""
    else (if s[0] >= '\U{80}' && RuneLength(s) == 0 then "\U{EF}\U{BF}\U{BD}" else s[..UnitLength(s)])
         + Sanitized(s[UnitLength(s)..])
  }

  predicate WellFormed(s: string)
    decreases |s|
  {
    s == "" || ((s[0] < '\U{80}' || RuneLength(s) != 0) && WellFormed(s[UnitLength(s)..]))
  }

  // ---- values; the way strings are quoted is a parameter ----

  type Quoter = string -> string

  /** The quoting of encoding/json. */
  function JsonQuoter(): Quoter {
    s => Quote(s)
  }

  function Marshal(quote: Quoter, v: Json): string
    decreases v, 0
  {
    match v
    case JString(s) => quote(s)
    case JInt(i) => Itoa(i)
    case JBool(b) => if b then "true" else "false"
    case JArray(items) => "[" + MarshalItems(quote, items) + "]"
  }

  function MarshalItems(quote: Quoter, items: seq<Json>): string
    decreases items
  {
    if items == [] then ""
    else if |items| == 1 then Marshal(quote, items[0])
    else Marshal(quote, items[0]) + "," + MarshalItems(quote, items[1..])
  }

  /** Keys in the order json.Marshal gives a map. */
  ghost function SortedKeys(keys: set<string>): (r: seq<string>)
    ensures ListsSorted(r, keys)
  {
    if keys == {} then []
    else
      var k :| k in keys;
      Insert(k, SortedKeys(keys - {k}))
  }

  function MarshalFields(quote: Quoter, keys: seq<string>, fields: map<string, string>): string
    requires forall k :: k in keys ==> k in fields
  {
    if keys == [] then ""
    else if |keys| == 1 then quote(keys[0]) + ":" + fields[keys[0]]
    else quote(keys[0]) + ":" + fields[keys[0]] + "," + MarshalFields(quote, keys[1..], fields)
  }

  lemma SortedKeysAreKeys(keys: set<string>)
    ensures forall k :: k in SortedKeys(keys) ==> k in keys
  {
    forall k | k in SortedKeys(keys) ensures k in keys {
      assert k in multiset(SortedKeys(keys));
    }
  }

  /** json.Marshal of a map from key to an already marshalled value. */
  ghost function MarshalObject(quote: Quoter, fields: map<string, string>): string {
    SortedKeysAreKeys(fields.Keys);
    "{" + MarshalFields(quote, SortedKeys(fields.Keys), fields) + "}"
  }

  // ---- an independent reader of JSON strings ----

  function HexValue(c: char): Option<nat> {
    if '0' <= c <= '9' then Some(c as int - '0' as int)
    else if 'a' <= c <= 'f' then Some(c as int - 'a' as int + 10)
    else if 'A' <= c <= 'F' then Some(c as int - 'A' as int + 10)
    else None
  }

  /** UTF-8 of a code point of the basic plane. */
  function Utf8(v: nat): string
    requires v < 0x10000
  {
    if v < 0x80 then [v as char]
    else if v < 0x800 then [(0xC0 + v / 64) as char, (0x80 + v % 64) as char]
    else [(0xE0 + v / 4096) as char, (0x80 + v / 64 % 64) as char, (0x80 + v % 64) as char]
  }

  function Hex4(t: string): Option<nat>
    requires |t| >= 4
    ensures Hex4(t).Some? ==> Hex4(t).value < 0x10000
  {
    var a, b, c, d := HexValue(t[0]), HexValue(t[1]), HexValue(t[2]), HexValue(t[3]);
    if a.None? || b.None? || c.None? || d.None? then None
    else Some(a.value * 4096 + b.value * 256 + c.value * 16 + d.value)
  }

  function Prefixed(p: string, rest: Option<string>): Option<string> {
    match rest case None => None case Some(r) => Some(p + r)
  }

  /** The characters between the quotes of a JSON string, read back. Surrogate pairs are never written here. */
  function Unescape(t: string): Option<string> {
    if t == "" then Some("")
    else if t[0] == '\"' || t[0] < ' ' then None
    else if t[0] != '\\' then Prefixed([t[0]], Unescape(t[1..]))
    else if |t| < 2 then None
    else if t[1] == '\"' || t[1] == '\\' || t[1] == '/' then Prefixed([t[1]], Unescape(t[2..]))
    else if t[1] == 'b' then Prefixed("\U{08}", Unescape(t[2..]))
    else if t[1] == 'f' then Prefixed("\U{0C}", Unescape(t[2..]))
    else if t[1] == 'n' then Prefixed("\n", Unescape(t[2..]))
    else if t[1] == 'r' then Prefixed("\r", Unescape(t[2..]))
    else if t[1] == 't' then Prefixed("\t", Unescape(t[2..]))
    else if t[1] != 'u' || |t| < 6 then None
    else match Hex4(t[2..])
         case None => None
         case Some(v) => if 0xD800 <= v < 0xE000 then None else Prefixed(Utf8(v), Unescape(t[6..]))
  }

  lemma UnescapeHex(hex: string, v: nat, rest: string)
    requires |hex| == 4 && Hex4(hex) == Some(v) && !(0xD800 <= v < 0xE000)
    ensures Unescape("\\u" + hex + rest) == Prefixed(Utf8(v), Unescape(rest))
  {
    var t := "\\u" + hex + rest;
    assert t[2..][0] == hex[0] && t[2..][1] == hex[1] && t[2..][2] == hex[2] && t[2..][3] == hex[3];
    assert t[6..] == rest;
  }

  lemma HexOfAscii(c: char)
    requires c < '\U{80}'
    ensures Hex4(['0', '0', HexDigit(c as int / 16), HexDigit(c as int % 16)]) == Some(c as int)
  {
  }

  lemma UnescapeAscii(c: char, rest: string)
    requires c < '\U{80}'
    ensures Unescape(EscapeAscii(c) + rest) == Prefixed([c], Unescape(rest))
  {
    var e := EscapeAscii(c);
    var t := e + rest;
    if |e| == 6 {
      var hex := ['0', '0', HexDigit(c as int / 16), HexDigit(c as int % 16)];
      HexOfAscii(c);
      UnescapeHex(hex, c as int, rest);
      assert e == "\\u" + hex;
    } else if |e| == 2 {
      assert t[2..] == rest;
    } else {
      assert t[1..] == rest;
    }
  }

  lemma UnescapeOne(c: char, rest: string)
    requires c >= '\U{80}'
    ensures Unescape([c] + rest) == Prefixed([c], Unescape(rest))
  {
    assert ([c] + rest)[1..] == rest;
  }

  lemma PrefixedTwice(a: string, b: string, r: Option<string>)
    ensures Prefixed(a, Prefixed(b, r)) == Prefixed(a + b, r)
  {
    if r.Some? {
      assert a + (b + r.value) == (a + b) + r.value;
    }
  }

  lemma {:induction false} UnescapePlain(p: string, rest: string)
    requires forall c :: c in p ==> c >= '\U{80}'
    ensures Unescape(p + rest) == Prefixed(p, Unescape(rest))
  {
    if p == "" {
      assert p + rest == rest;
      if Unescape(rest).Some? { assert "" + Unescape(rest).value == Unescape(rest).value; }
    } else {
      assert p[0] in p && forall c :: c in p[1..] ==> c in p;
      assert p == [p[0]] + p[1..] && p + rest == [p[0]] + (p[1..] + rest);
      UnescapeOne(p[0], p[1..] + rest);
      UnescapePlain(p[1..], rest);
      PrefixedTwice([p[0]], p[1..], Unescape(rest));
    }
  }

  lemma UnescapeSeparator(s: string, rest: string)
    requires s != "" && s[0] >= '\U{80}' && RuneLength(s) != 0 && LineSeparator(s)
    ensures Unescape(EscapeUnit(s) + rest) == Prefixed(s[..UnitLength(s)], Unescape(rest))
  {
    if s[2] == '\U{A8}' {
      UnescapeHex("2028", 0x2028, rest);
      assert "\\u2028" + rest == "\\u" + "2028" + rest;
    } else {
      UnescapeHex("2029", 0x2029, rest);
      assert "\\u2029" + rest == "\\u" + "2029" + rest;
    }
    assert Utf8(if s[2] == '\U{A8}' then 0x2028 else 0x2029) == s[..3];
  }

  lemma UnescapeUnit(s: string, rest: string)
    requires s != ""
    ensures var unit := if s[0] >= '\U{80}' && RuneLength(s) == 0 then "\U{EF}\U{BF}\U{BD}" else s[..UnitLength(s)];
            Unescape(EscapeUnit(s) + rest) == Prefixed(unit, Unescape(rest))
  {
    if s[0] < '\U{80}' {
      UnescapeAscii(s[0], rest);
      assert s[..1] == [s[0]];
    } else if RuneLength(s) == 0 {
      UnescapeHex("fffd", 0xFFFD, rest);
      assert "\\ufffd" + rest == "\\u" + "fffd" + rest;
    } else if LineSeparator(s) {
      UnescapeSeparator(s, rest);
    } else {
      UnescapePlain(s[..RuneLength(s)], rest);
    }
  }

  /** A reader of the marshalled string gets the original characters, ill-formed bytes replaced. */
  lemma {:induction false} EscapeReadsBack(s: string)
    ensures Unescape(Escape(s)) == Some(Sanitized(s))
    decreases |s|
  {
    if s != "" {
      var rest := s[UnitLength(s)..];
      EscapeReadsBack(rest);
      UnescapeUnit(s, Escape(rest));
    }
  }

  /** A marshalled string holds no control character and none that HTML gives a meaning. */
  lemma {:induction false} EscapedTextIsHarmless(s: string)
    ensures forall c :: c in Escape(s) ==> ' ' <= c && c != '<' && c != '>' && c != '&'
    decreases |s|
  {
    if s != "" {
      UnitIsHarmless(s);
      EscapedTextIsHarmless(s[UnitLength(s)..]);
    }
  }

  lemma UnitIsHarmless(s: string)
    requires s != ""
    ensures forall c :: c in EscapeUnit(s) ==> ' ' <= c && c != '<' && c != '>' && c != '&'
  {
    if s[0] < '\U{80}' {
      AsciiIsHarmless(s[0]);
    } else if RuneLength(s) != 0 && !LineSeparator(s) {
      assert forall i :: 0 <= i < RuneLength(s) ==> s[i] >= '\U{80}';
    }
  }

  lemma AsciiIsHarmless(c: char)
    requires c < '\U{80}'
    ensures forall x :: x in EscapeAscii(c) ==> ' ' <= x && x != '<' && x != '>' && x != '&'
  {
    assert "\\u00" == ['\\', 'u', '0', '0'];
  }

  lemma {:induction false} SanitizedKeepsWellFormed(s: string)
    requires WellFormed(s)
    ensures Sanitized(s) == s
    decreases |s|
  {
    if s != "" {
      SanitizedKeepsWellFormed(s[UnitLength(s)..]);
    }
  }

  predicate Safe(c: char) {
    ' ' <= c < '\U{80}' && c != '\\' && c != '\"' && c != '<' && c != '>' && c != '&'
  }

  predicate SafeText(s: string) {
    forall i :: 0 <= i < |s| ==> Safe(s[i])
  }

  /** A string in quotes, without escaping. */
  function Q(s: string): string {
    "\"" + s + "\""
  }

  ghost predicate QuotesSafeText(quote: Quoter) {
    forall s :: SafeText(s) ==> quote(s) == Q(s)
  }

  lemma {:induction false} SafeTextUnescaped(s: string)
    requires SafeText(s)
    ensures Escape(s) == s
  {
    if s != "" {
      SafeTextUnescaped(s[1..]);
    }
  }

  /** Text of safe characters needs no escaping. */
  lemma JsonQuotesSafeText()
    ensures QuotesSafeText(JsonQuoter())
  {
    forall s | SafeText(s) ensures JsonQuoter()(s) == Q(s) {
      SafeTextUnescaped(s);
    }
  }
}
