/**
 The NZBGet append body: hand-written JSON around NZB content that is base64-encoded chunk by
 chunk while the body is read, proved equal to the marshalled call.
 */
module AppendStream {
  import opened Outcomes
  import opened Text
  import opened Base64
  import opened Json
  import opened JsonReader

  /** A multiple of 3, so only the last chunk carries padding. */
  const CHUNK := 48 * 1024

  function Min(a: nat, b: nat): nat {
    if a < b then a else b
  }

  // ---- what one Read does, on values ----

  /** The source not encoded yet, and the encoded text not read yet. */
  datatype Reader = Reader(src: seq<Byte>, out: string)

  datatype Outcome = Eof | Delivered(text: string)

  function Remaining(r: Reader): string {
    r.out + Encode(r.src)
  }

  function Refilled(r: Reader): Reader {
    if r.out == "" then
      var n := Min(|r.src|, CHUNK);
      Reader(r.src[n..], Encode(r.src[..n]))
    else r
  }

  function ReadStep(r: Reader, size: nat): (Reader, Outcome) {
    if r.out == "" && r.src == [] then (r, Eof)
    else
      var full := Refilled(r);
      var n := Min(size, |full.out|);
      (full.(out := full.out[n..]), Delivered(full.out[..n]))
  }

  lemma RefillKeepsText(r: Reader)
    requires r.out != "" || r.src != []
    ensures Remaining(Refilled(r)) == Remaining(r) && Refilled(r).out != ""
  {
    if r.out == "" {
      var n := Min(|r.src|, CHUNK);
      assert r.src == r.src[..n] + r.src[n..];
      EncodeLength(r.src[..n]);
      if n == |r.src| {
        assert r.src[..n] == r.src;
      } else {
        EncodeConcat(r.src[..n], r.src[n..]);
      }
    }
  }

  /** A Read delivers the next characters of the remaining text, at least one into a non-empty buffer; EOF exactly at the end. */
  lemma ReadDeliversNext(r: Reader, size: nat)
    ensures var (after, got) := ReadStep(r, size);
            && (got.Eof? <==> Remaining(r) == "")
            && (got.Eof? ==> after == r)
            && (got.Delivered? ==> got.text + Remaining(after) == Remaining(r) && |got.text| <= size)
            && (got.Delivered? && size > 0 ==> got.text != "")
  {
    EncodeLength(r.src);
    if r.out != "" || r.src != [] {
      RefillKeepsText(r);
      var full := Refilled(r);
      var n := Min(size, |full.out|);
      assert full.out == full.out[..n] + full.out[n..];
    }
  }

  // ---- the reader itself: one buffer, reused for every chunk ----

  class Base64Reader {
    var src: seq<Byte>
    var buf: array<char>
    var lo: nat            // out is buf[lo..hi]
    var hi: nat

    ghost predicate Valid()
      reads this
    {
      lo <= hi <= buf.Length
    }

    ghost function State(): Reader
      requires Valid()
      reads this, buf
    {
      Reader(src, buf[lo..hi])
    }

    constructor (content: seq<Byte>)
      ensures Valid() && State() == Reader(content, "") && fresh(buf)
    {
      src, lo, hi := content, 0, 0;
      buf := new char[0];
    }

    /** base64.StdEncoding.AppendEncode(buf[:0], chunk): reuses buf when it is large enough. */
    method EncodeChunk(chunk: seq<Byte>)
      requires Valid()
      modifies this`buf, this`lo, this`hi, buf
      ensures Valid() && buf[lo..hi] == Encode(chunk)
      ensures buf == old(buf) || fresh(buf)
    {
      var text := Encode(chunk);
      if buf.Length < |text| {
        buf := new char[|text|];
      }
      forall i | 0 <= i < |text| {
        buf[i] := text[i];
      }
      lo, hi := 0, |text|;
      assert buf[lo..hi] == text;
    }

    /** Encodes the next chunk once everything encoded so far has been read. */
    method Refill()
      requires Valid() && (hi != lo || src != [])
      modifies this, buf
      ensures Valid() && State() == Refilled(old(State())) && lo < hi
      ensures buf == old(buf) || fresh(buf)
    {
      if hi == lo {
        var k := if |src| < CHUNK then |src| else CHUNK;
        EncodeLength(src[..k]);
        EncodeChunk(src[..k]);
        src := src[k..];
      }
    }

    /** copy(p, out), and out moves past what was copied. */
    method CopyOut(p: array<char>) returns (n: nat)
      requires Valid() && p != buf
      modifies this`lo, p
      ensures Valid() && n == Min(p.Length, |old(State()).out|)
      ensures p[..n] == old(State()).out[..n] && p[n..] == old(p[n..])
      ensures State() == old(State()).(out := old(State()).out[n..])
    {
      n := if p.Length < hi - lo then p.Length else hi - lo;
      ghost var out, rest := buf[lo..hi], p[n..];
      forall i | 0 <= i < n {
        p[i] := buf[lo + i];
      }
      assert p[..n] == out[..n];
      assert p[n..] == rest;
      assert out[n..] == buf[lo + n..hi];
      lo := lo + n;
    }

    /** Fills the front of p with the next encoded characters. The buffer never overtakes unread text. */
    method Read(p: array<char>) returns (n: nat, eof: bool)
      requires Valid() && p != buf
      modifies this, buf, p
      ensures Valid() && (buf == old(buf) || fresh(buf))
      ensures State() == ReadStep(old(State()), p.Length).0
      ensures var got := ReadStep(old(State()), p.Length).1;
              && (eof <==> got.Eof?)
              && n == (if eof then 0 else |got.text|) <= p.Length
              && (!eof ==> p[..n] == got.text)
      ensures p[n..] == old(p[..])[n..]
    {
      if hi == lo && |src| == 0 {
        return 0, true;
      }
      Refill();
      n := CopyOut(p);
      eof := false;
    }
  }

  // ---- io.MultiReader over text and encoded parts ----

  datatype Part = Plain(text: string) | Encoded(reader: Reader)

  function PartStep(part: Part, size: nat): (Part, Outcome) {
    match part
    case Plain(text) =>
      if text == "" then (part, Eof)
      else var n := Min(size, |text|); (Plain(text[n..]), Delivered(text[..n]))
    case Encoded(reader) =>
      var (after, got) := ReadStep(reader, size); (Encoded(after), got)
  }

  function PartText(part: Part): string {
    match part case Plain(text) => text case Encoded(reader) => Remaining(reader)
  }

  /** One Read of the body: parts at their end are skipped. */
  function BodyStep(parts: seq<Part>, size: nat): (seq<Part>, Outcome) {
    if parts == [] then (parts, Eof)
    else
      var (part, got) := PartStep(parts[0], size);
      if got.Eof? then BodyStep(parts[1..], size) else ([part] + parts[1..], got)
  }

  function BodyText(parts: seq<Part>): string {
    if parts == [] then "" else PartText(parts[0]) + BodyText(parts[1..])
  }

  lemma PartDeliversNext(part: Part, size: nat)
    ensures var (after, got) := PartStep(part, size);
            && (got.Eof? <==> PartText(part) == "")
            && (got.Delivered? ==> got.text + PartText(after) == PartText(part) && |got.text| <= size)
            && (got.Delivered? && size > 0 ==> got.text != "")
  {
    match part
    case Plain(text) =>
      var n := Min(size, |text|);
      assert text == text[..n] + text[n..];
    case Encoded(reader) =>
      ReadDeliversNext(reader, size);
  }

  lemma FirstPartRead(part: Part, rest: seq<Part>, got: string, text: string)
    requires got + PartText(part) == text
    ensures got + BodyText([part] + rest) == text + BodyText(rest)
  {
    assert ([part] + rest)[1..] == rest;
    assert got + (PartText(part) + BodyText(rest)) == (got + PartText(part)) + BodyText(rest);
  }

  lemma {:induction false} BodyDeliversNext(parts: seq<Part>, size: nat)
    ensures var (after, got) := BodyStep(parts, size);
            && (got.Eof? <==> BodyText(parts) == "")
            && (got.Delivered? ==> got.text + BodyText(after) == BodyText(parts) && |got.text| <= size)
            && (got.Delivered? && size > 0 ==> got.text != "")
  {
    if parts != [] {
      PartDeliversNext(parts[0], size);
      var (part, got) := PartStep(parts[0], size);
      if got.Eof? {
        BodyDeliversNext(parts[1..], size);
        assert "" + BodyText(parts[1..]) == BodyText(parts[1..]);
      } else {
        FirstPartRead(part, parts[1..], got.text, PartText(parts[0]));
        assert |PartText(parts[0])| >= |got.text|;
      }
    }
  }

  /** Everything a sequence of Reads into buffers of the given sizes delivers, and whether it reached EOF. */
  function ReadAll(parts: seq<Part>, sizes: seq<nat>): (string, bool)
    decreases |sizes|
  {
    if sizes == [] then ("", false)
    else
      var (after, got) := BodyStep(parts, sizes[0]);
      if got.Eof? then ("", true)
      else var (rest, eof) := ReadAll(after, sizes[1..]); (got.text + rest, eof)
  }

  /** Whatever the buffer sizes, what is delivered is a prefix of the text, all of it at EOF, and EOF comes. */
  lemma {:induction false} AnyReadsDeliverTheText(parts: seq<Part>, sizes: seq<nat>)
    ensures ReadAll(parts, sizes).0 <= BodyText(parts)
    ensures ReadAll(parts, sizes).1 ==> ReadAll(parts, sizes).0 == BodyText(parts)
    ensures (forall n :: n in sizes ==> n > 0) && |sizes| > |BodyText(parts)| ==> ReadAll(parts, sizes).1
    decreases |sizes|
  {
    if sizes != [] {
      BodyDeliversNext(parts, sizes[0]);
      var (after, got) := BodyStep(parts, sizes[0]);
      if got.Delivered? {
        AnyReadsDeliverTheText(after, sizes[1..]);
        assert sizes[0] in sizes && forall n :: n in sizes[1..] ==> n in sizes;
      }
    }
  }

  // ---- the append call ----

  /** {"a":x,"b": */
  function Front(a: string, x: string, b: string): string {
    "{" + (Q(a) + ":" + x + "," + (Q(b) + ":"))
  }

  /** ,"c": */
  function Middle(c: string): string {
    "," + (Q(c) + ":")
  }

  /** {"id":1,"method":<name>,"params": */
  function CallFront(name: string): string {
    Front("id", "1", "method") + name + Middle("params")
  }

  /** {"id":1,"method":"append","params":[<name>," */
  function Head(quote: Quoter, filename: string): string {
    CallFront(Q("append")) + ("[" + Marshal(quote, JString(filename)) + "," + "\"")
  }

  /** The parameters after the content: the marshalled list without its opening bracket. */
  function End(quote: Quoter, rest: seq<Json>): string {
    "\"" + "," + Marshal(quote, JArray(rest))[1..] + "}"
  }

  function AppendBody(quote: Quoter, filename: string, content: seq<Byte>, rest: seq<Json>): seq<Part> {
    [Plain(Head(quote, filename)), Encoded(Reader(content, "")), Plain(End(quote, rest))]
  }

  /** The Content-Length the request declares. */
  function DeclaredLength(quote: Quoter, filename: string, content: seq<Byte>, rest: seq<Json>): nat {
    |Head(quote, filename)| + EncodedLen(|content|) + |End(quote, rest)|
  }

  /** What `call` marshals for a method and its parameters. */
  ghost function MarshalledCall(quote: Quoter, name: string, params: seq<Json>): string {
    MarshalObject(quote, map["method" := Marshal(quote, JString(name)), "params" := Marshal(quote, JArray(params)),
                             "id" := Marshal(quote, JInt(1))])
  }

  lemma CallKeysSorted()
    ensures SortedKeys({"method", "params", "id"}) == ["id", "method", "params"]
  {
    var keys := ["id", "method", "params"];
    assert Sorted(keys) by {
      assert "id"[0] < "method"[0] < "params"[0];
    }
    assert NoDuplicates(keys) by {
      assert keys[0][0] != keys[1][0] && keys[1][0] != keys[2][0] && keys[0][0] != keys[2][0];
    }
    DistinctElements(keys, {"method", "params", "id"});
    SortedUnique(keys, SortedKeys({"method", "params", "id"}));
  }

  lemma Assoc(a: string, b: string, c: string)
    ensures a + (b + c) == (a + b) + c
  {
  }

  lemma ThreeFields(quote: Quoter, a: string, b: string, c: string, fields: map<string, string>)
    requires a in fields && b in fields && c in fields
    ensures MarshalFields(quote, [a, b, c], fields)
         == quote(a) + ":" + fields[a] + "," + (quote(b) + ":" + fields[b] + "," + (quote(c) + ":" + fields[c]))
  {
    assert [a, b, c][1..] == [b, c] && [b, c][1..] == [c];
    assert MarshalFields(quote, [c], fields) == quote(c) + ":" + fields[c];
    assert MarshalFields(quote, [b, c], fields) == quote(b) + ":" + fields[b] + "," + MarshalFields(quote, [c], fields);
  }

  lemma Regroup(o: string, l: string, b: string, y: string, c: string, z: string)
    ensures o + (l + (b + y + "," + (c + z))) == (o + (l + b)) + y + ("," + c) + z
  {
    Assoc(l, b + y + ",", c + z);
    Assoc(l, b + y, ",");
    Assoc(l, b, y);
    Assoc(l + b + y + ",", c, z);
    Assoc(l + b + y, ",", c);
    assert l + (b + y + "," + (c + z)) == l + b + y + ("," + c) + z;
    Assoc(o, l + b + y + ("," + c), z);
    Assoc(o, l + b + y, "," + c);
    Assoc(o, l + b, y);
  }

  lemma ObjectText(quote: Quoter, a: string, b: string, c: string, fields: map<string, string>)
    requires QuotesSafeText(quote) && SafeText(a) && SafeText(b) && SafeText(c)
    requires a in fields && b in fields && c in fields && SortedKeys(fields.Keys) == [a, b, c]
    ensures MarshalObject(quote, fields) == Front(a, fields[a], b) + fields[b] + Middle(c) + fields[c] + "}"
  {
    ThreeFields(quote, a, b, c, fields);
    Regroup("{", Q(a) + ":" + fields[a] + ",", Q(b) + ":", fields[b], Q(c) + ":", fields[c]);
  }

  lemma KeysAreSafe()
    ensures SafeText("id") && SafeText("method") && SafeText("params")
  {
    var id, name, params := "id", "method", "params";
    assert |id| == 2 && id[0] == 'i' && id[1] == 'd';
    assert |name| == 6 && name[0] == 'm' && name[1] == 'e' && name[2] == 't' && name[3] == 'h' && name[4] == 'o' && name[5] == 'd';
    assert |params| == 6 && params[0] == 'p' && params[1] == 'a' && params[2] == 'r' && params[3] == 'a'
           && params[4] == 'm' && params[5] == 's';
  }

  lemma MethodIsSafe()
    ensures SafeText("append")
  {
    var name := "append";
    assert |name| == 6 && name[0] == 'a' && name[1] == 'p' && name[2] == 'p' && name[3] == 'e' && name[4] == 'n' && name[5] == 'd';
  }

  lemma CallText(quote: Quoter, name: string, params: seq<Json>)
    requires QuotesSafeText(quote)
    ensures MarshalledCall(quote, name, params)
         == CallFront(Marshal(quote, JString(name))) + Marshal(quote, JArray(params)) + "}"
  {
    var fields := map["method" := Marshal(quote, JString(name)), "params" := Marshal(quote, JArray(params)),
                      "id" := Marshal(quote, JInt(1))];
    CallKeysSorted();
    KeysAreSafe();
    KeysDiffer();
    assert fields.Keys == {"method", "params", "id"};
    ObjectText(quote, "id", "method", "params", fields);
    OneIsWritten(quote);
  }

  lemma KeysDiffer()
    ensures "id" != "method" && "method" != "params" && "id" != "params"
  {
    assert "id"[0] != "method"[0] && "method"[0] != "params"[0] && "id"[0] != "params"[0];
  }

  lemma OneIsWritten(quote: Quoter)
    ensures Marshal(quote, JInt(1)) == "1"
  {
  }

  /** The marshalled parameter list is the name, the quoted content and the marshalled tail without its bracket. */
  lemma AppendParams(quote: Quoter, filename: string, encoded: string, rest: seq<Json>)
    requires QuotesSafeText(quote) && SafeText(encoded)
    ensures Marshal(quote, JArray([JString(filename), JString(encoded)] + rest))
         == "[" + (Marshal(quote, JString(filename)) + ","
                   + (Q(encoded) + (if rest == [] then "" else "," + MarshalItems(quote, rest)))) + "]"
  {
    var params := [JString(filename), JString(encoded)] + rest;
    assert params[1..] == [JString(encoded)] + rest;
    assert params[1..][1..] == rest;
    assert Marshal(quote, JString(encoded)) == Q(encoded);
    if rest == [] {
      assert params[1..] == [JString(encoded)];
      assert MarshalItems(quote, [JString(encoded)]) == Q(encoded);
      assert Q(encoded) + "" == Q(encoded);
    } else {
      assert MarshalItems(quote, [JString(encoded)] + rest) == Q(encoded) + "," + MarshalItems(quote, rest);
      Assoc(Q(encoded), ",", MarshalItems(quote, rest));
    }
  }

  lemma BodyPieces(quote: Quoter, filename: string, content: seq<Byte>, rest: seq<Json>)
    ensures BodyText(AppendBody(quote, filename, content, rest)) == Head(quote, filename) + (Encode(content) + End(quote, rest))
  {
    var a, b, c := Plain(Head(quote, filename)), Encoded(Reader(content, "")), Plain(End(quote, rest));
    assert [a, b, c][1..] == [b, c] && [b, c][1..] == [c] && [c][1..] == [];
    assert BodyText([c]) == End(quote, rest);
    assert PartText(b) == Encode(content);
  }

  /** The streamed text, regrouped like the marshalled call; `tail` is the marshalled tail items. */
  lemma BodyRegrouped(front: string, name: string, encoded: string, tail: string)
    ensures front + ("[" + name + "," + "\"") + (encoded + ("\"" + "," + (tail + "]") + "}"))
         == front + ("[" + (name + "," + (Q(encoded) + ("," + tail))) + "]") + "}"
  {
    var quote, body := "\"", "," + tail;
    Assoc(quote, ",", tail + "]");
    Assoc(",", tail, "]");
    assert quote + "," + (tail + "]") == quote + (body + "]");
    Assoc(quote, body + "]", "}");
    Assoc(encoded, quote, body + "]" + "}");
    assert encoded + (quote + "," + (tail + "]") + "}") == encoded + quote + (body + "]" + "}");
    Assoc(front, "[" + name + "," + quote, encoded + quote + (body + "]" + "}"));
    Assoc("[" + name + "," + quote, encoded + quote, body + "]" + "}");
    Assoc("[" + name + ",", quote, encoded + quote);
    Assoc(quote, encoded, quote);
    assert "[" + name + "," + quote + (encoded + quote) == "[" + name + "," + Q(encoded);
    Assoc("[" + name + "," + Q(encoded), body + "]", "}");
    Assoc("[" + name + "," + Q(encoded), body, "]");
    Assoc("[" + name + ",", Q(encoded), body);
    Assoc("[", name, ",");
    Assoc("[", name + ",", Q(encoded) + body);
    assert "[" + name + "," + Q(encoded) + body == "[" + (name + "," + (Q(encoded) + body));
    Assoc(front, "[" + (name + "," + (Q(encoded) + body)) + "]", "}");
  }

  lemma TailItems(quote: Quoter, rest: seq<Json>)
    ensures Marshal(quote, JArray(rest))[1..] == MarshalItems(quote, rest) + "]"
  {
  }

  /** The streamed body is the marshalled call exactly when further parameters follow the content. */
  lemma BodyIsMarshalledCall(quote: Quoter, filename: string, content: seq<Byte>, rest: seq<Json>)
    requires QuotesSafeText(quote)
    ensures BodyText(AppendBody(quote, filename, content, rest))
         == MarshalledCall(quote, "append", [JString(filename), JString(Encode(content))] + rest)
         <==> rest != []
    ensures |BodyText(AppendBody(quote, filename, content, rest))| == DeclaredLength(quote, filename, content, rest)
  {
    var front, name, encoded := CallFront(Q("append")), Marshal(quote, JString(filename)), Encode(content);
    BodyPieces(quote, filename, content, rest);
    EncodeLength(content);
    CallText(quote, "append", [JString(filename), JString(encoded)] + rest);
    MethodIsSafe();
    SymbolsAreNotSpecial(content);
    AppendParams(quote, filename, encoded, rest);
    TailItems(quote, rest);
    BodyRegrouped(front, name, encoded, MarshalItems(quote, rest));
    if rest == [] {
      assert |BodyText(AppendBody(quote, filename, content, rest))|
          == |MarshalledCall(quote, "append", [JString(filename), JString(encoded)] + rest)| + 1;
    }
  }

  /**
   The streamed append: whatever the sizes of the buffers a transport reads into, on the first
   attempt and on any resend, the bytes delivered up to EOF are the marshalled call, as many as
   declared; and non-empty buffers do reach EOF.
   */
  lemma StreamedAppendIsMarshalledCall(filename: string, content: seq<Byte>, rest: seq<Json>, sizes: seq<nat>)
    requires rest != []
    ensures var (delivered, eof) := ReadAll(AppendBody(JsonQuoter(), filename, content, rest), sizes);
            var call := MarshalledCall(JsonQuoter(), "append", [JString(filename), JString(Encode(content))] + rest);
            && delivered <= call && |call| == DeclaredLength(JsonQuoter(), filename, content, rest)
            && (eof ==> delivered == call)
            && ((forall n :: n in sizes ==> n > 0) && |sizes| > |call| ==> eof)
  {
    JsonQuotesSafeText();
    BodyIsMarshalledCall(JsonQuoter(), filename, content, rest);
    AnyReadsDeliverTheText(AppendBody(JsonQuoter(), filename, content, rest), sizes);
  }

  // ---- what NZBGet reads out of the body ----

  /** The call's values, by key. */
  function CallValues(name: string, params: seq<Json>): map<string, Json> {
    map["method" := JString(name), "params" := JArray(params), "id" := JInt(1)]
  }

  lemma SafeIsSanitized(s: string)
    requires SafeText(s)
    ensures Sanitized(s) == s
  {
    SafeIsWellFormed(s);
    SanitizedKeepsWellFormed(s);
  }

  lemma ThreeReadBack(a: string, b: string, c: string, values: map<string, Json>)
    requires SafeText(a) && SafeText(b) && SafeText(c) && a in values && b in values && c in values
    ensures ReadBack([a, b, c], values) == [(a, SanitizedValue(values[a])), (b, SanitizedValue(values[b])), (c, SanitizedValue(values[c]))]
  {
    SafeIsSanitized(a);
    SafeIsSanitized(b);
    SafeIsSanitized(c);
    assert [a, b, c][1..] == [b, c] && [b, c][1..] == [c] && [c][1..] == [];
    assert ReadBack([c], values) == [(c, SanitizedValue(values[c]))] + ReadBack([], values);
    assert ReadBack([b, c], values) == [(b, SanitizedValue(values[b]))] + ReadBack([c], values);
  }

  lemma CallValuesMarshalled(quote: Quoter, name: string, params: seq<Json>)
    ensures MarshalledCall(quote, name, params) == MarshalObject(quote, MarshalledValues(quote, CallValues(name, params)))
  {
    assert MarshalledValues(quote, CallValues(name, params))
        == map["method" := Marshal(quote, JString(name)), "params" := Marshal(quote, JArray(params)), "id" := Marshal(quote, JInt(1))];
  }

  lemma ThreeFieldsReadBack(quote: Quoter, a: string, b: string, c: string, values: map<string, Json>)
    requires ReadsQuotes(quote) && SafeText(a) && SafeText(b) && SafeText(c)
    requires a in values && b in values && c in values && SortedKeys(values.Keys) == [a, b, c]
    ensures ReadObject(MarshalObject(quote, MarshalledValues(quote, values)))
         == Some(([(a, SanitizedValue(values[a])), (b, SanitizedValue(values[b])), (c, SanitizedValue(values[c]))], ""))
  {
    WholeObjectReadsBack(quote, [a, b, c], values);
    ThreeReadBack(a, b, c, values);
  }

  lemma CallValuesKeys(name: string, params: seq<Json>)
    ensures SortedKeys(CallValues(name, params).Keys) == ["id", "method", "params"]
  {
    assert CallValues(name, params).Keys == {"method", "params", "id"};
    CallKeysSorted();
  }

  lemma CallValuesAre(name: string, params: seq<Json>)
    ensures var values := CallValues(name, params);
            && "id" in values && "method" in values && "params" in values
            && values["id"] == JInt(1) && values["method"] == JString(name) && values["params"] == JArray(params)
  {
    KeysDiffer();
  }

  /** A reader of the marshalled call gets its three fields, and the whole text is read. */
  lemma CallReadsBack(quote: Quoter, name: string, params: seq<Json>)
    requires ReadsQuotes(quote) && SafeText(name)
    ensures ReadObject(MarshalledCall(quote, name, params))
         == Some(([("id", JInt(1)), ("method", JString(name)), ("params", JArray(SanitizedItems(params)))], ""))
  {
    KeysAreSafe();
    CallValuesKeys(name, params);
    CallValuesAre(name, params);
    CallValuesMarshalled(quote, name, params);
    ThreeFieldsReadBack(quote, "id", "method", "params", CallValues(name, params));
    SafeIsSanitized(name);
  }

  lemma SanitizedCons(v: Json, items: seq<Json>)
    ensures SanitizedItems([v] + items) == [SanitizedValue(v)] + SanitizedItems(items)
  {
    assert ([v] + items)[1..] == items;
  }

  lemma AppendParamsSanitized(filename: string, encoded: string, rest: seq<Json>)
    requires SafeText(encoded)
    ensures SanitizedItems([JString(filename), JString(encoded)] + rest)
         == [JString(Sanitized(filename)), JString(encoded)] + SanitizedItems(rest)
  {
    SafeIsSanitized(encoded);
    SanitizedCons(JString(encoded), rest);
    SanitizedCons(JString(filename), [JString(encoded)] + rest);
    assert [JString(filename), JString(encoded)] + rest == [JString(filename)] + ([JString(encoded)] + rest);
  }

  /**
   What NZBGet reads out of the body it was sent, however that was cut into reads: an append call with
   the file name (bytes outside UTF-8 replaced), a text that decodes to the payload bit for bit, and
   the further parameters; and nothing is left over.
   */
  lemma ReceiverReadsTheCall(filename: string, content: seq<Byte>, rest: seq<Json>, sizes: seq<nat>)
    requires rest != []
    ensures var (delivered, eof) := ReadAll(AppendBody(JsonQuoter(), filename, content, rest), sizes);
            eof ==>
              ReadObject(delivered) ==
              Some(([("id", JInt(1)), ("method", JString("append")),
                     ("params", JArray([JString(Sanitized(filename)), JString(Encode(content))] + SanitizedItems(rest)))], ""))
    ensures Decode(Encode(content)) == Some(content)
    ensures WellFormed(filename) ==> Sanitized(filename) == filename
  {
    DecodeReadsBack(content);
    if WellFormed(filename) {
      SanitizedKeepsWellFormed(filename);
    }
    StreamedAppendIsMarshalledCall(filename, content, rest, sizes);
    JsonReadsQuotes();
    MethodIsSafe();
    SymbolsAreNotSpecial(content);
    AppendParamsSanitized(filename, Encode(content), rest);
    CallReadsBack(JsonQuoter(), "append", [JString(filename), JString(Encode(content))] + rest);
  }

  lemma {:induction false} SafeIsWellFormed(s: string)
    requires SafeText(s)
    ensures WellFormed(s)
  {
    if s != "" {
      SafeIsWellFormed(s[1..]);
    }
  }
}
