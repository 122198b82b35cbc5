/** Client specs, their validation (PrepareSpec) and their fingerprint (specHash). */
module ClientSpecs {
  import opened Outcomes
  import opened Text

  /** One configured client, as a config push sends it. `kind` is the adapter type. */
  datatype ClientSpec = ClientSpec(
    id: string,
    kind: string,
    baseUrl: string,
    auth: string,
    username: string,
    secret: string,
    category: string,
    savePath: string,
    protocols: seq<string>)

  datatype TypeInfo = TypeInfo(
    name: string,
    protocols: seq<string>,
    auth: seq<string>,
    acceptsPayload: bool,
    supportsSavePath: bool,
    canPause: bool)

  const CATALOG: seq<TypeInfo> := [
    TypeInfo("nzbget", ["usenet"], ["basic", "none"], true, false, true),
    TypeInfo("odownloader", ["http"], ["token", "none"], false, false, false),
    TypeInfo("qbittorrent", ["torrent"], ["basic", "none"], true, true, true)
  ]

  function FindType(types: seq<TypeInfo>, name: string): (r: Option<TypeInfo>)
    ensures r.None? <==> forall t :: t in types ==> t.name != name
    ensures r.Some? ==> r.value in types && r.value.name == name
  {
    if types == [] then None
    else if types[0].name == name then Some(types[0])
    else FindType(types[1..], name)
  }

  function LookupType(name: string): Option<TypeInfo> {
    FindType(CATALOG, name)
  }

  predicate IdHead(c: char) {
    'a' <= c <= 'z' || '0' <= c <= '9'
  }

  /** The id rule ^[a-z0-9][a-z0-9-]{0,39}$. */
  predicate ValidClientId(id: string) {
    && 1 <= |id| <= 40
    && IdHead(id[0])
    && forall i :: 1 <= i < |id| ==> IdHead(id[i]) || id[i] == '-'
  }

  // ---- validation ----

  /** What url.Parse reports about a base URL; the parser itself is a parameter. */
  datatype ParsedUrl = ParsedUrl(scheme: string, host: string, hasUser: bool)
  type UrlParser = string -> Option<ParsedUrl>

  datatype SpecError =
    | UnknownType
    | BadUrl
    | UrlCredentials
    | UrlQuery
    | BadAuth
    | NoUsername
    | NoSecret
    | TooLong(field: string)
    | ControlChars(field: string)
    | BadProtocol

  datatype Field = Field(name: string, value: string, limit: nat)

  predicate IsControl(c: char) {
    c < ' ' || c == '\U{7F}'
  }

  function UrlProblem(parse: UrlParser, raw: string): Option<SpecError> {
    var u := parse(raw);
    if raw == "" || |raw| > 2048 || u.None? then Some(BadUrl)
    else if (u.value.scheme != "http" && u.value.scheme != "https") || u.value.host == "" then Some(BadUrl)
    else if u.value.hasUser then Some(UrlCredentials)
    else if '?' in raw || '#' in raw then Some(UrlQuery)
    else None
  }

  /** The username and secret that remain under an auth mode. */
  function Credentials(auth: string, username: string, secret: string): Result<(string, string), SpecError> {
    if auth == "basic" then
      if username == "" then Failure(NoUsername) else Success((username, secret))
    else if auth == "token" then
      if secret == "" then Failure(NoSecret) else Success(("", secret))
    else Success(("", ""))
  }

  function FieldProblem(f: Field): Option<SpecError> {
    if |f.value| > f.limit then Some(TooLong(f.name))
    else if exists i :: 0 <= i < |f.value| && IsControl(f.value[i]) then Some(ControlChars(f.name))
    else None
  }

  function FirstProblem(fields: seq<Field>): (r: Option<SpecError>)
    ensures r.None? <==> forall f :: f in fields ==> FieldProblem(f).None?
  {
    if fields == [] then None
    else if FieldProblem(fields[0]).Some? then FieldProblem(fields[0])
    else FirstProblem(fields[1..])
  }

  function LimitedFields(s: ClientSpec): seq<Field> {
    [Field("username", s.username, 256), Field("secret", s.secret, 4096),
     Field("category", s.category, 128), Field("savePath", s.savePath, 1024)]
  }

  /** The distinct trimmed protocols in order of first appearance; None when one is not allowed. */
  function Distinct(allowed: seq<string>, raw: seq<string>): (r: Option<seq<string>>)
    ensures r.Some? <==> forall p :: p in raw ==> TrimSpace(p) in allowed
    ensures r.Some? ==> NoDuplicates(r.value)
    ensures r.Some? ==> forall q :: q in r.value <==> exists p :: p in raw && TrimSpace(p) == q
  {
    if raw == [] then Some([])
    else
      var last := raw[|raw| - 1];
      var before := Distinct(allowed, raw[..|raw| - 1]);
      assert raw == raw[..|raw| - 1] + [last];
      var p := TrimSpace(last);
      if before.None? || p !in allowed then None
      else if p in before.value then before
      else Some(before.value + [p])
  }

  function Protocols(allowed: seq<string>, raw: seq<string>): Result<seq<string>, SpecError> {
    match Distinct(allowed, raw)
    case None => Failure(BadProtocol)
    case Some(ps) => Success(Sort(if ps == [] then allowed else ps))
  }

  /** The normal form of a spec, or the first reason it is refused. */
  function Prepared(parse: UrlParser, raw: ClientSpec): Result<ClientSpec, SpecError> {
    var kind := TrimSpace(raw.kind);
    match LookupType(kind)
    case None => Failure(UnknownType)
    case Some(info) =>
      var url := TrimSpace(raw.baseUrl);
      match UrlProblem(parse, url)
      case Some(e) => Failure(e)
      case None =>
        var auth := TrimSpace(raw.auth);
        if auth !in info.auth then Failure(BadAuth)
        else
          match Credentials(auth, TrimSpace(raw.username), raw.secret)
          case Failure(e) => Failure(e)
          case Success((username, secret)) =>
            var s := ClientSpec(TrimSpace(raw.id), kind, TrimSlashes(url), auth, username, secret,
                                TrimSpace(raw.category), TrimSpace(raw.savePath), raw.protocols);
            match FirstProblem(LimitedFields(s))
            case Some(e) => Failure(e)
            case None =>
              match Protocols(info.protocols, raw.protocols)
              case Failure(e) => Failure(e)
              case Success(ps) => Success(s.(protocols := ps))
  }

  lemma PreparedKeepsId(parse: UrlParser, raw: ClientSpec)
    ensures Prepared(parse, raw).Success? ==> Prepared(parse, raw).value.id == TrimSpace(raw.id)
  {
  }

  method CheckFields(fields: seq<Field>) returns (r: Option<SpecError>)
    ensures r == FirstProblem(fields)
  {
    for i := 0 to |fields|
      invariant FirstProblem(fields) == FirstProblem(fields[i..])
    {
      if FieldProblem(fields[i]).Some? { return FieldProblem(fields[i]); }
    }
    return None;
  }

  method CollectProtocols(allowed: seq<string>, raw: seq<string>) returns (r: Result<seq<string>, SpecError>)
    ensures r == Protocols(allowed, raw)
  {
    var protocols: seq<string> := [];
    for i := 0 to |raw|
      invariant Distinct(allowed, raw[..i]) == Some(protocols)
    {
      var p := TrimSpace(raw[i]);
      assert raw[..i + 1][..i] == raw[..i];
      if p !in allowed {
        assert raw[i] in raw;
        return Failure(BadProtocol);
      }
      if p !in protocols {
        protocols := protocols + [p];
      }
    }
    assert raw[..|raw|] == raw;
    if |protocols| == 0 {
      protocols := allowed;
    }
    return Success(Sort(protocols));
  }

  /** PrepareSpec: rewrites a copy of the spec step by step, collecting protocols in a loop. */
  method PrepareSpec(parse: UrlParser, raw: ClientSpec) returns (r: Result<ClientSpec, SpecError>)
    ensures r == Prepared(parse, raw)
  {
    var s := raw.(id := TrimSpace(raw.id), kind := TrimSpace(raw.kind));
    var found := LookupType(s.kind);
    if found.None? { return Failure(UnknownType); }
    var info := found.value;

    var url := TrimSpace(s.baseUrl);
    var problem := UrlProblem(parse, url);
    if problem.Some? { return Failure(problem.value); }
    s := s.(baseUrl := TrimSlashes(url));

    s := s.(auth := TrimSpace(s.auth));
    if s.auth !in info.auth { return Failure(BadAuth); }
    s := s.(username := TrimSpace(s.username));
    if s.auth == "basic" {
      if s.username == "" { return Failure(NoUsername); }
    } else if s.auth == "token" {
      s := s.(username := "");
      if s.secret == "" { return Failure(NoSecret); }
    } else {
      s := s.(username := "", secret := "");
    }

    s := s.(category := TrimSpace(s.category), savePath := TrimSpace(s.savePath));
    var field := CheckFields(LimitedFields(s));
    if field.Some? { return Failure(field.value); }

    var ps := CollectProtocols(info.protocols, s.protocols);
    if ps.Failure? { return Failure(ps.error); }
    return Success(s.(protocols := ps.value));
  }

  /** What an accepted spec looks like, whatever was sent. */
  ghost predicate Normal(s: ClientSpec) {
    && LookupType(s.kind).Some? && s.auth in LookupType(s.kind).value.auth
    && (forall p :: p in s.protocols ==> p in LookupType(s.kind).value.protocols)
    && !HasSlashAtEnd(s.baseUrl)
    && CredentialsNormal(s.auth, s.username, s.secret)
    && FirstProblem(LimitedFields(s)).None?
    && s.protocols != [] && NoDuplicates(s.protocols) && Sorted(s.protocols)
  }

  predicate CredentialsNormal(auth: string, username: string, secret: string) {
    && (auth == "basic" ==> username != "")
    && (auth == "token" ==> username == "" && secret != "")
    && (auth == "none" ==> username == "" && secret == "")
  }

  predicate HasSlashAtEnd(s: string) {
    s != "" && s[|s| - 1] == '/'
  }

  lemma {:induction false} TrimSlashesLeavesNone(s: string)
    ensures !HasSlashAtEnd(TrimSlashes(s))
  {
    if HasSlashAtEnd(s) {
      TrimSlashesLeavesNone(s[..|s| - 1]);
    }
  }

  lemma ProtocolsAreNormal(allowed: seq<string>, raw: seq<string>)
    requires allowed != [] && NoDuplicates(allowed) && Protocols(allowed, raw).Success?
    ensures var ps := Protocols(allowed, raw).value;
            && ps != [] && NoDuplicates(ps) && Sorted(ps)
            && (forall p :: p in ps ==> p in allowed)
            && (raw != [] ==> forall p :: p in ps <==> exists q :: q in raw && TrimSpace(q) == p)
  {
    var ps := Distinct(allowed, raw).value;
    forall q | q in ps ensures q in allowed {
      var p :| p in raw && TrimSpace(p) == q;
    }
    if raw != [] {
      assert raw[0] in raw;
      assert TrimSpace(raw[0]) in ps;
    }
    SortKeepsElements(if ps == [] then allowed else ps);
  }

  lemma CatalogProtocols(name: string)
    requires LookupType(name).Some?
    ensures var ps := LookupType(name).value.protocols;
            ps != [] && NoDuplicates(ps) && forall p :: p in ps ==> ',' !in p
  {
    assert forall info :: info in CATALOG ==> |info.protocols| == 1 && ',' !in info.protocols[0];
  }

  lemma CredentialsFitMode(auth: string, username: string, secret: string)
    requires Credentials(auth, username, secret).Success?
    ensures CredentialsNormal(auth, Credentials(auth, username, secret).value.0, Credentials(auth, username, secret).value.1)
  {
    assert |"basic"| == 5 && |"token"| == 5 && |"none"| == 4 && "basic"[0] != "token"[0];
  }

  /** Everything PrepareSpec accepts is in normal form. */
  lemma PreparedIsNormal(parse: UrlParser, raw: ClientSpec)
    ensures Prepared(parse, raw).Success? ==> Normal(Prepared(parse, raw).value)
  {
    if Prepared(parse, raw).Success? {
      var s := Prepared(parse, raw).value;
      var info := LookupType(TrimSpace(raw.kind)).value;
      CredentialsFitMode(TrimSpace(raw.auth), TrimSpace(raw.username), raw.secret);
      TrimSlashesLeavesNone(TrimSpace(raw.baseUrl));
      CatalogProtocols(s.kind);
      ProtocolsAreNormal(info.protocols, raw.protocols);
    }
  }

  // ---- the fingerprint ----

  /** fmt.Fprintf(h, "%d:%s|", len(f), f). */
  function Frame(f: string): string {
    Decimal(|f|) + ":" + f + "|"
  }

  function Frames(fields: seq<string>): string {
    if fields == [] then "" else Frame(fields[0]) + Frames(fields[1..])
  }

  function HashedFields(s: ClientSpec): seq<string> {
    [s.kind, s.baseUrl, s.auth, s.username, s.secret, s.category, s.savePath, Join(s.protocols, ',')]
  }

  /** The bytes specHash feeds to SHA-256. */
  function Fingerprint(s: ClientSpec): string {
    Frames(HashedFields(s))
  }

  lemma {:induction false} FramesAppend(fields: seq<string>, f: string)
    ensures Frames(fields + [f]) == Frames(fields) + Frame(f)
  {
    if fields == [] {
      assert Frames([f]) == Frame(f) + Frames([]);
    } else {
      assert (fields + [f])[1..] == fields[1..] + [f];
      FramesAppend(fields[1..], f);
    }
  }

  method SpecHash(s: ClientSpec) returns (hashed: string)
    ensures hashed == Fingerprint(s)
  {
    var fields := HashedFields(s);
    hashed := "";
    for i := 0 to |fields|
      invariant hashed == Frames(fields[..i])
    {
      assert fields[..i + 1] == fields[..i] + [fields[i]];
      FramesAppend(fields[..i], fields[i]);
      hashed := hashed + Frame(fields[i]);
    }
    assert fields[..|fields|] == fields;
  }

  /** A frame can be split off the front of a stream in only one way. */
  lemma FrameUnique(f: string, x: string, g: string, y: string)
    requires Frame(f) + x == Frame(g) + y
    ensures f == g && x == y
  {
    DecimalReadsBack(|f|);
    DecimalReadsBack(|g|);
    var restF, restG := f + "|" + x, g + "|" + y;
    assert Frame(f) + x == Decimal(|f|) + [':'] + restF;
    assert Frame(g) + y == Decimal(|g|) + [':'] + restG;
    SplitUnique(Decimal(|f|), restF, Decimal(|g|), restG, ':');
    assert f == restF[..|f|] && g == restG[..|g|];
    assert x == restF[|f| + 1..] && y == restG[|g| + 1..];
  }

  /** The length-prefixed encoding is uniquely decodable, for any number of fields. */
  lemma {:induction false} FramesInjective(a: seq<string>, b: seq<string>)
    requires Frames(a) == Frames(b)
    ensures a == b
  {
    if a != [] && b != [] {
      FrameUnique(a[0], Frames(a[1..]), b[0], Frames(b[1..]));
      FramesInjective(a[1..], b[1..]);
      assert a == [a[0]] + a[1..] && b == [b[0]] + b[1..];
    }
  }

  /** Two accepted specs have the same fingerprint exactly when they agree on every field but the id. */
  lemma FingerprintFaithful(a: ClientSpec, b: ClientSpec)
    requires Normal(a) && Normal(b)
    ensures Fingerprint(a) == Fingerprint(b) <==> a.(id := b.id) == b
  {
    if Fingerprint(a) == Fingerprint(b) {
      FramesInjective(HashedFields(a), HashedFields(b));
      var fa, fb := HashedFields(a), HashedFields(b);
      assert fa[0] == fb[0] && fa[1] == fb[1] && fa[2] == fb[2] && fa[3] == fb[3];
      assert fa[4] == fb[4] && fa[5] == fb[5] && fa[6] == fb[6] && fa[7] == fb[7];
      CatalogProtocols(a.kind);
      CatalogProtocols(b.kind);
      JoinInjective(a.protocols, b.protocols, ',');
    }
  }
}
