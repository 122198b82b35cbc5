/** A reader of JSON text (RFC 8259), written for what encoding/json marshals, and the round trip through it. */
module JsonReader {
  import opened Outcomes
  import opened Text
  import opened Json

  /** A value that was read, and the text after it. */
  type Read<T> = Option<(T, string)>

  // ---- strings ----

  /** The characters up to the closing quote, still escaped. */
  function Body(t: string): (r: Read<string>)
    ensures r.Some? ==> |r.value.1| < |t|
  {
    if t == "" then None
    else if t[0] == '\"' then Some(("", t[1..]))
    else if t[0] == '\\' then
      if |t| < 2 then None
      else match Body(t[2..]) case None => None case Some((b, rest)) => Some((t[..2] + b, rest))
    else match Body(t[1..]) case None => None case Some((b, rest)) => Some(([t[0]] + b, rest))
  }

  function ReadString(t: string): (r: Read<string>)
    ensures r.Some? ==> |r.value.1| < |t|
  {
    if t == "" || t[0] != '\"' then None
    else
      match Body(t[1..])
      case None => None
      case Some((b, rest)) => match Unescape(b) case None => None case Some(s) => Some((s, rest))
  }

  /** Escaped text: every backslash takes a character with it, and no quote stands alone. */
  predicate Escaped(e: string) {
    e == "" || (if e[0] == '\\' then |e| >= 2 && Escaped(e[2..]) else e[0] != '\"' && Escaped(e[1..]))
  }

  lemma {:induction false} EscapedConcat(a: string, b: string)
    requires Escaped(a) && Escaped(b)
    ensures Escaped(a + b)
    decreases |a|
  {
    if a == "" {
      assert a + b == b;
    } else if a[0] == '\\' {
      EscapedConcat(a[2..], b);
      assert (a + b)[2..] == a[2..] + b;
    } else {
      EscapedConcat(a[1..], b);
      assert (a + b)[1..] == a[1..] + b;
    }
  }

  lemma {:induction false} PlainIsEscaped(p: string)
    requires forall c :: c in p ==> c != '\\' && c != '\"'
    ensures Escaped(p)
  {
    if p != "" {
      assert p[0] in p && forall c :: c in p[1..] ==> c in p;
      PlainIsEscaped(p[1..]);
    }
  }

  lemma HexIsPlain(d: nat)
    requires d < 16
    ensures HexDigit(d) != '\\' && HexDigit(d) != '\"'
  {
  }

  lemma AsciiIsEscaped(c: char)
    requires c < '\U{80}'
    ensures Escaped(EscapeAscii(c))
  {
    var e := EscapeAscii(c);
    if |e| == 6 {
      HexIsPlain(c as int / 16);
      HexIsPlain(c as int % 16);
      PlainIsEscaped(e[2..]);
    } else if |e| == 2 {
      assert e[2..] == "";
    } else {
      assert e[1..] == "";
    }
  }

  lemma UnitIsEscaped(s: string)
    requires s != ""
    ensures Escaped(EscapeUnit(s))
  {
    if s[0] < '\U{80}' {
      AsciiIsEscaped(s[0]);
    } else if RuneLength(s) == 0 {
      PlainIsEscaped("\\ufffd"[2..]);
    } else if LineSeparator(s) {
      PlainIsEscaped("\\u2028"[2..]);
      PlainIsEscaped("\\u2029"[2..]);
    } else {
      PlainIsEscaped(s[..RuneLength(s)]);
    }
  }

  lemma {:induction false} EscapeIsEscaped(s: string)
    ensures Escaped(Escape(s))
    decreases |s|
  {
    if s != "" {
      UnitIsEscaped(s);
      EscapeIsEscaped(s[UnitLength(s)..]);
      EscapedConcat(EscapeUnit(s), Escape(s[UnitLength(s)..]));
    }
  }

  lemma {:induction false} BodyOfEscaped(e: string, rest: string)
    requires Escaped(e)
    ensures Body(e + "\"" + rest) == Some((e, rest))
    decreases |e|
  {
    var t := e + "\"" + rest;
    if e == "" {
      assert t[1..] == rest;
    } else if e[0] == '\\' {
      BodyOfEscaped(e[2..], rest);
      assert t[2..] == e[2..] + "\"" + rest && t[..2] == e[..2];
      assert e[..2] + e[2..] == e;
    } else {
      BodyOfEscaped(e[1..], rest);
      assert t[1..] == e[1..] + "\"" + rest;
      assert [e[0]] + e[1..] == e;
    }
  }

  /** The quoting can be read back, whatever follows. */
  ghost predicate ReadsQuotes(quote: Quoter) {
    forall s, rest :: ReadString(quote(s) + rest) == Some((Sanitized(s), rest)) && quote(s) != "" && quote(s)[0] == '\"'
  }

  lemma QuotedText(e: string, rest: string)
    ensures ("\"" + e + "\"" + rest)[0] == '\"' && ("\"" + e + "\"" + rest)[1..] == e + "\"" + rest
  {
  }

  lemma QuoteReadsBack(s: string, rest: string)
    ensures ReadString(Quote(s) + rest) == Some((Sanitized(s), rest)) && Quote(s) != "" && Quote(s)[0] == '\"'
  {
    var e := Escape(s);
    EscapeIsEscaped(s);
    BodyOfEscaped(e, rest);
    EscapeReadsBack(s);
    QuotedText(e, rest);
  }

  lemma JsonReadsQuotes()
    ensures ReadsQuotes(JsonQuoter())
  {
    forall s, rest ensures ReadString(JsonQuoter()(s) + rest) == Some((Sanitized(s), rest)) && JsonQuoter()(s) != "" && JsonQuoter()(s)[0] == '\"' {
      QuoteReadsBack(s, rest);
    }
  }

  // ---- integers ----

  predicate IsDigit(c: char) {
    '0' <= c <= '9'
  }

  function DigitsAhead(t: string): (n: nat)
    ensures n <= |t|
  {
    if t == "" || !IsDigit(t[0]) then 0 else 1 + DigitsAhead(t[1..])
  }

  ghost function ReadInt(t: string): (r: Read<int>)
    ensures r.Some? ==> |r.value.1| < |t|
  {
    var sign := if t != "" && t[0] == '-' then 1 else 0;
    var n := DigitsAhead(t[sign..]);
    if n == 0 then None
    else
      var value := DecimalValue(t[sign..][..n]);
      Some((if sign == 1 then -value else value, t[sign + n..]))
  }

  /** The text does not go on with a digit. */
  predicate NumberEnds(rest: string) {
    rest == "" || !IsDigit(rest[0])
  }

  lemma {:induction false} DigitsOf(d: string, rest: string)
    requires (forall c :: c in d ==> IsDigit(c)) && NumberEnds(rest)
    ensures DigitsAhead(d + rest) == |d|
  {
    if d == "" {
      assert d + rest == rest;
    } else {
      assert d[0] in d && forall c :: c in d[1..] ==> c in d;
      DigitsOf(d[1..], rest);
      assert (d + rest)[1..] == d[1..] + rest;
    }
  }

  lemma SignText(sign: string, d: string, rest: string)
    requires sign == "" || sign == "-"
    ensures var t := sign + d + rest; t[|sign|..] == d + rest && t[|sign| + |d|..] == rest && (d + rest)[..|d|] == d
  {
  }

  /** Digits after an optional sign are read to their end. */
  lemma SignedDigits(sign: string, d: string, rest: string)
    requires sign == "" || sign == "-"
    requires d != "" && (forall c :: c in d ==> IsDigit(c)) && NumberEnds(rest)
    ensures ReadInt(sign + d + rest) == Some((if sign == "" then DecimalValue(d) else -DecimalValue(d), rest))
  {
    DigitsOf(d, rest);
    SignText(sign, d, rest);
    assert d[0] in d && IsDigit(d[0]);
    assert (sign + d + rest)[0] == '-' <==> sign == "-";
  }

  lemma IntReadsBack(i: int, rest: string)
    requires NumberEnds(rest)
    ensures ReadInt(Itoa(i) + rest) == Some((i, rest))
    ensures Itoa(i) != "" && (Itoa(i)[0] == '-' || IsDigit(Itoa(i)[0]))
  {
    var n: nat := if i < 0 then -i else i;
    var d := Decimal(n);
    DecimalReadsBack(n);
    assert d[0] in d;
    if i < 0 {
      SignedDigits("-", d, rest);
    } else {
      SignedDigits("", d, rest);
      assert "" + d + rest == d + rest;
    }
  }

  // ---- values ----

  ghost function ReadValue(t: string): (r: Read<Json>)
    ensures r.Some? ==> |r.value.1| < |t|
    decreases |t|, 0
  {
    if t == "" then None
    else if t[0] == '\"' then match ReadString(t) case None => None case Some((s, rest)) => Some((JString(s), rest))
    else if t[0] == '[' then
      if |t| > 1 && t[1] == ']' then Some((JArray([]), t[2..]))
      else match ReadItems(t[1..]) case None => None case Some((items, rest)) => Some((JArray(items), rest))
    else if HasPrefix(t, "true") then Some((JBool(true), t[4..]))
    else if HasPrefix(t, "false") then Some((JBool(false), t[5..]))
    else match ReadInt(t) case None => None case Some((i, rest)) => Some((JInt(i), rest))
  }

  /** Values up to the closing bracket. */
  ghost function ReadItems(t: string): (r: Read<seq<Json>>)
    ensures r.Some? ==> |r.value.1| < |t|
    decreases |t|, 1
  {
    match ReadValue(t)
    case None => None
    case Some((v, rest)) =>
      if rest != "" && rest[0] == ']' then Some(([v], rest[1..]))
      else if rest != "" && rest[0] == ',' then
        match ReadItems(rest[1..]) case None => None case Some((vs, more)) => Some(([v] + vs, more))
      else None
  }

  type Fields = seq<(string, Json)>

  /** Named values up to the closing brace. */
  ghost function ReadFields(t: string): Read<Fields>
    decreases |t|
  {
    match ReadString(t)
    case None => None
    case Some((name, rest)) =>
      if rest == "" || rest[0] != ':' then None
      else
        match ReadValue(rest[1..])
        case None => None
        case Some((v, more)) =>
          if more != "" && more[0] == '}' then Some(([(name, v)], more[1..]))
          else if more != "" && more[0] == ',' then
            match ReadFields(more[1..]) case None => None case Some((fs, end)) => Some(([(name, v)] + fs, end))
          else None
  }

  ghost function ReadObject(t: string): Read<Fields> {
    if t == "" || t[0] != '{' then None else ReadFields(t[1..])
  }

  /** What survives marshalling: bytes outside UTF-8 are replaced. */
  function SanitizedValue(v: Json): Json {
    match v
    case JString(s) => JString(Sanitized(s))
    case JArray(items) => JArray(SanitizedItems(items))
    case _ => v
  }

  function SanitizedItems(items: seq<Json>): seq<Json> {
    if items == [] then [] else [SanitizedValue(items[0])] + SanitizedItems(items[1..])
  }

  lemma MarshalStarts(quote: Quoter, v: Json)
    requires ReadsQuotes(quote)
    ensures Marshal(quote, v) != "" && Marshal(quote, v)[0] != ']'
  {
    match v
    case JString(s) => assert ReadString(quote(s) + "").Some?;
    case JInt(i) => IntReadsBack(i, "");
    case _ =>
  }

  lemma ItemsStart(quote: Quoter, items: seq<Json>)
    requires ReadsQuotes(quote) && items != []
    ensures MarshalItems(quote, items) != "" && MarshalItems(quote, items)[0] != ']'
  {
    MarshalStarts(quote, items[0]);
  }

  /** Any marshalled value is read back, and nothing after it is touched. */
  lemma {:induction false} ValueReadsBack(quote: Quoter, v: Json, rest: string)
    requires ReadsQuotes(quote) && NumberEnds(rest)
    ensures ReadValue(Marshal(quote, v) + rest) == Some((SanitizedValue(v), rest))
    decreases v, 0
  {
    match v
    case JString(s) =>
      assert ReadString(quote(s) + rest) == Some((Sanitized(s), rest));
    case JInt(i) => IntValueReadsBack(i, rest);
    case JBool(b) => BoolReadsBack(b, rest);
    case JArray(items) =>
      if items == [] {
        var t := "[]" + rest;
        assert Marshal(quote, v) == "[]" && t[1] == ']' && t[2..] == rest;
      } else {
        ItemsStart(quote, items);
        ItemsReadBack(quote, items, rest);
        ArrayText(MarshalItems(quote, items), rest);
      }
  }

  lemma ArrayText(inner: string, rest: string)
    requires inner != "" && inner[0] != ']'
    ensures var t := "[" + inner + "]" + rest; t[0] == '[' && t[1] != ']' && t[1..] == inner + ("]" + rest)
  {
  }

  lemma IntValueReadsBack(i: int, rest: string)
    requires NumberEnds(rest)
    ensures ReadValue(Itoa(i) + rest) == Some((JInt(i), rest))
  {
    IntReadsBack(i, rest);
  }

  lemma BoolReadsBack(b: bool, rest: string)
    ensures ReadValue((if b then "true" else "false") + rest) == Some((JBool(b), rest))
  {
    var w := if b then "true" else "false";
    assert w == if b then ['t', 'r', 'u', 'e'] else ['f', 'a', 'l', 's', 'e'];
    assert (w + rest)[..|w|] == w && (w + rest)[|w|..] == rest;
  }

  lemma SanitizedOne(items: seq<Json>)
    requires |items| == 1
    ensures SanitizedItems(items) == [SanitizedValue(items[0])]
  {
    assert items[1..] == [];
  }

  /** The text of some items and their bracket, grouped the way it is read. */
  lemma ItemsGrouped(quote: Quoter, items: seq<Json>, rest: string)
    requires items != []
    ensures |items| == 1 ==> MarshalItems(quote, items) + ("]" + rest) == Marshal(quote, items[0]) + ("]" + rest)
    ensures |items| > 1 ==> MarshalItems(quote, items) + ("]" + rest)
                            == Marshal(quote, items[0]) + ("," + (MarshalItems(quote, items[1..]) + ("]" + rest)))
  {
    if |items| > 1 {
      CommaGrouped(Marshal(quote, items[0]), MarshalItems(quote, items[1..]), "]" + rest);
    }
  }

  lemma CommaGrouped(a: string, b: string, c: string)
    ensures a + "," + b + c == a + ("," + (b + c))
  {
  }

  lemma Tail(c: string, rest: string)
    requires |c| == 1
    ensures c + rest != "" && (c + rest)[0] == c[0] && (c + rest)[1..] == rest
  {
  }

  lemma OneItem(t: string, v: Json, after: string)
    requires ReadValue(t) == Some((v, after)) && after != ""
    ensures after[0] == ']' ==> ReadItems(t) == Some(([v], after[1..]))
    ensures after[0] == ',' && ReadItems(after[1..]).Some? ==>
              ReadItems(t) == Some(([v] + ReadItems(after[1..]).value.0, ReadItems(after[1..]).value.1))
  {
  }

  lemma {:induction false} ItemsReadBack(quote: Quoter, items: seq<Json>, rest: string)
    requires ReadsQuotes(quote) && items != []
    ensures ReadItems(MarshalItems(quote, items) + ("]" + rest)) == Some((SanitizedItems(items), rest))
    decreases items, 1
  {
    var first := Marshal(quote, items[0]);
    ItemsGrouped(quote, items, rest);
    if |items| == 1 {
      var after := "]" + rest;
      Tail("]", rest);
      ValueReadsBack(quote, items[0], after);
      OneItem(first + after, SanitizedValue(items[0]), after);
      SanitizedOne(items);
    } else {
      var more := MarshalItems(quote, items[1..]) + ("]" + rest);
      var after := "," + more;
      Tail(",", more);
      ItemsReadBack(quote, items[1..], rest);
      ValueReadsBack(quote, items[0], after);
      OneItem(first + after, SanitizedValue(items[0]), after);
    }
  }

  /** The marshalled values of some fields. */
  function MarshalledValues(quote: Quoter, values: map<string, Json>): map<string, string> {
    map k | k in values :: Marshal(quote, values[k])
  }

  function ReadBack(keys: seq<string>, values: map<string, Json>): Fields
    requires forall k :: k in keys ==> k in values
  {
    if keys == [] then [] else [(Sanitized(keys[0]), SanitizedValue(values[keys[0]]))] + ReadBack(keys[1..], values)
  }

  lemma OneField(t: string, name: string, value: string, v: Json, after: string)
    requires ReadString(t) == Some((name, ":" + value)) && ReadValue(value) == Some((v, after)) && after != ""
    ensures after[0] == '}' ==> ReadFields(t) == Some(([(name, v)], after[1..]))
    ensures after[0] == ',' && ReadFields(after[1..]).Some? ==>
              ReadFields(t) == Some(([(name, v)] + ReadFields(after[1..]).value.0, ReadFields(after[1..]).value.1))
  {
    assert (":" + value)[1..] == value;
  }

  /** The text of one field and what follows it, grouped the way it is read. */
  lemma FieldGrouped(name: string, value: string, more: string, rest: string)
    ensures name + ":" + value + ("}" + rest) == name + (":" + (value + ("}" + rest)))
    ensures name + ":" + value + "," + more + ("}" + rest) == name + (":" + (value + ("," + (more + ("}" + rest)))))
  {
  }

  lemma FieldReadsBack(quote: Quoter, k: string, v: Json, after: string)
    requires ReadsQuotes(quote) && after != "" && NumberEnds(after)
    ensures var t := quote(k) + (":" + (Marshal(quote, v) + after));
            && (after[0] == '}' ==> ReadFields(t) == Some(([(Sanitized(k), SanitizedValue(v))], after[1..])))
            && (after[0] == ',' && ReadFields(after[1..]).Some? ==>
                  ReadFields(t) == Some(([(Sanitized(k), SanitizedValue(v))] + ReadFields(after[1..]).value.0,
                                         ReadFields(after[1..]).value.1)))
  {
    var value := Marshal(quote, v) + after;
    assert ReadString(quote(k) + (":" + value)) == Some((Sanitized(k), ":" + value));
    ValueReadsBack(quote, v, after);
    OneField(quote(k) + (":" + value), Sanitized(k), value, SanitizedValue(v), after);
  }

  lemma ReadBackOne(keys: seq<string>, values: map<string, Json>)
    requires |keys| == 1 && keys[0] in values && forall k :: k in keys ==> k in values
    ensures ReadBack(keys, values) == [(Sanitized(keys[0]), SanitizedValue(values[keys[0]]))]
  {
    assert keys[1..] == [];
  }

  lemma FieldsGrouped(quote: Quoter, keys: seq<string>, fields: map<string, string>, rest: string)
    requires keys != [] && forall k :: k in keys ==> k in fields
    ensures var first := quote(keys[0]);
            MarshalFields(quote, keys, fields) + ("}" + rest)
            == first + (":" + (fields[keys[0]] + if |keys| == 1 then "}" + rest else "," + (MarshalFields(quote, keys[1..], fields) + ("}" + rest))))
  {
    if |keys| == 1 {
      FieldGrouped(quote(keys[0]), fields[keys[0]], "", rest);
    } else {
      FieldGrouped(quote(keys[0]), fields[keys[0]], MarshalFields(quote, keys[1..], fields), rest);
    }
  }

  lemma {:induction false} FieldsReadBack(quote: Quoter, keys: seq<string>, values: map<string, Json>, rest: string)
    requires ReadsQuotes(quote) && keys != [] && forall k :: k in keys ==> k in values
    ensures ReadFields(MarshalFields(quote, keys, MarshalledValues(quote, values)) + ("}" + rest)) == Some((ReadBack(keys, values), rest))
    decreases |keys|
  {
    var fields, v := MarshalledValues(quote, values), values[keys[0]];
    FieldsGrouped(quote, keys, fields, rest);
    if |keys| == 1 {
      Tail("}", rest);
      FieldReadsBack(quote, keys[0], v, "}" + rest);
      ReadBackOne(keys, values);
    } else {
      var more := MarshalFields(quote, keys[1..], fields) + ("}" + rest);
      Tail(",", more);
      FieldsReadBack(quote, keys[1..], values, rest);
      FieldReadsBack(quote, keys[0], v, "," + more);
    }
  }

  /** An object marshalled from a map is read back field by field, in the order of its keys. */
  lemma ObjectReadsBack(quote: Quoter, keys: seq<string>, values: map<string, Json>, rest: string)
    requires ReadsQuotes(quote) && keys != [] && keys == SortedKeys(values.Keys)
    ensures forall k :: k in keys ==> k in values
    ensures ReadObject(MarshalObject(quote, MarshalledValues(quote, values)) + rest) == Some((ReadBack(keys, values), rest))
  {
    SortedKeysAreKeys(values.Keys);
    var fields := MarshalledValues(quote, values);
    assert fields.Keys == values.Keys;
    FieldsReadBack(quote, keys, values, rest);
    ObjectText(MarshalFields(quote, keys, fields), rest);
  }

  lemma WholeObjectReadsBack(quote: Quoter, keys: seq<string>, values: map<string, Json>)
    requires ReadsQuotes(quote) && keys != [] && keys == SortedKeys(values.Keys)
    ensures forall k :: k in keys ==> k in values
    ensures ReadObject(MarshalObject(quote, MarshalledValues(quote, values))) == Some((ReadBack(keys, values), ""))
  {
    var text := MarshalObject(quote, MarshalledValues(quote, values));
    ObjectReadsBack(quote, keys, values, "");
    assert text + "" == text;
  }

  lemma ObjectText(inner: string, rest: string)
    ensures ("{" + inner + "}" + rest)[1..] == inner + ("}" + rest)
  {
  }
}
