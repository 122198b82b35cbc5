/** Which client specs are accepted, what an accepted one runs with, and why the others are refused. */
module AcceptedSpecs {
  import opened Outcomes
  import opened Text
  import opened ClientSpecs

  // ---- the catalog ----

  ghost predicate Known(kind: string) {
    kind == "nzbget" || kind == "odownloader" || kind == "qbittorrent"
  }

  ghost predicate Offers(kind: string, auth: string) {
    || auth == "none"
    || (auth == "basic" && (kind == "nzbget" || kind == "qbittorrent"))
    || (auth == "token" && kind == "odownloader")
  }

  /** The one protocol a client of this type carries. */
  ghost function Carries(kind: string): string {
    if kind == "nzbget" then "usenet" else if kind == "odownloader" then "http" else "torrent"
  }

  lemma KindsDiffer()
    ensures "nzbget" != "odownloader" && "nzbget" != "qbittorrent" && "odownloader" != "qbittorrent"
  {
    assert "nzbget"[0] == 'n' && "odownloader"[0] == 'o' && "qbittorrent"[0] == 'q';
  }

  lemma ModesDiffer()
    ensures "basic" != "token" && "basic" != "none" && "token" != "none"
  {
    assert "basic"[0] == 'b' && "token"[0] == 't' && "none"[0] == 'n';
  }

  lemma CatalogEntries(kind: string)
    ensures LookupType(kind).Some? <==> Known(kind)
    ensures kind == "nzbget" ==> LookupType(kind) == Some(CATALOG[0])
    ensures kind == "odownloader" ==> LookupType(kind) == Some(CATALOG[1])
    ensures kind == "qbittorrent" ==> LookupType(kind) == Some(CATALOG[2])
  {
    KindsDiffer();
    var one, two, three := CATALOG[2..], CATALOG[1..], CATALOG;
    assert one == [CATALOG[2]] && two == [CATALOG[1], CATALOG[2]];
    assert one[1..] == [] && two[1..] == one && three[1..] == two;
  }

  /** What each type offers: its auth modes, its protocol, and what it takes. */
  lemma TypesOffer(kind: string, auth: string)
    requires Known(kind)
    ensures LookupType(kind).Some?
    ensures var info := LookupType(kind).value;
            && (auth in info.auth <==> Offers(kind, auth))
            && info.protocols == [Carries(kind)]
            && info.acceptsPayload == (kind != "odownloader")
            && info.supportsSavePath == (kind == "qbittorrent")
            && info.canPause == (kind != "odownloader")
  {
    KindsDiffer();
    CatalogEntries(kind);
  }

  /** An id is one to forty lower-case letters, digits and hyphens, and does not start with a hyphen. */
  lemma IdRule(id: string)
    ensures ValidClientId(id) <==>
      && 1 <= |id| <= 40 && id[0] != '-'
      && forall c :: c in id ==> 'a' <= c <= 'z' || '0' <= c <= '9' || c == '-'
  {
    if ValidClientId(id) {
      forall c | c in id ensures 'a' <= c <= 'z' || '0' <= c <= '9' || c == '-' {
        var i :| 0 <= i < |id| && id[i] == c;
      }
    } else if 1 <= |id| <= 40 && id[0] != '-' {
      if forall c :: c in id ==> 'a' <= c <= 'z' || '0' <= c <= '9' || c == '-' {
        assert forall i :: 0 <= i < |id| ==> id[i] in id;
      }
    }
  }

  // ---- the checks ----

  ghost predicate AbsoluteUrl(parse: UrlParser, url: string) {
    && 1 <= |url| <= 2048 && parse(url).Some?
    && (parse(url).value.scheme == "http" || parse(url).value.scheme == "https") && parse(url).value.host != ""
  }

  ghost predicate GoodUrl(parse: UrlParser, url: string) {
    AbsoluteUrl(parse, url) && !parse(url).value.hasUser && '?' !in url && '#' !in url
  }

  lemma UrlProblems(parse: UrlParser, url: string)
    ensures UrlProblem(parse, url).None? <==> GoodUrl(parse, url)
    ensures UrlProblem(parse, url) == Some(BadUrl) <==> !AbsoluteUrl(parse, url)
    ensures UrlProblem(parse, url) == Some(UrlCredentials) <==> AbsoluteUrl(parse, url) && parse(url).value.hasUser
    ensures UrlProblem(parse, url) == Some(UrlQuery) <==>
      AbsoluteUrl(parse, url) && !parse(url).value.hasUser && ('?' in url || '#' in url)
  {
    var u := parse(url);
  }

  ghost predicate HasControl(s: string) {
    exists c :: c in s && (c < ' ' || c == '\U{7F}')
  }

  ghost predicate Fits(s: string, limit: nat) {
    |s| <= limit && !HasControl(s)
  }

  lemma FieldProblems(f: Field)
    ensures FieldProblem(f) == Some(TooLong(f.name)) <==> |f.value| > f.limit
    ensures FieldProblem(f) == Some(ControlChars(f.name)) <==> |f.value| <= f.limit && HasControl(f.value)
    ensures FieldProblem(f).None? <==> Fits(f.value, f.limit)
  {
    if HasControl(f.value) {
      var c :| c in f.value && (c < ' ' || c == '\U{7F}');
      var i :| 0 <= i < |f.value| && f.value[i] == c;
      assert IsControl(f.value[i]);
    }
    assert forall i :: 0 <= i < |f.value| ==> f.value[i] in f.value;
  }

  lemma ProblemOfFirst(f: Field, rest: seq<Field>)
    ensures FirstProblem([f] + rest) == if FieldProblem(f).Some? then FieldProblem(f) else FirstProblem(rest)
  {
    assert ([f] + rest)[1..] == rest;
  }

  /** The problem of four fields is that of the first that has one. */
  lemma FirstOfFour(a: Field, b: Field, c: Field, d: Field)
    ensures FirstProblem([a, b, c, d]) ==
      if FieldProblem(a).Some? then FieldProblem(a)
      else if FieldProblem(b).Some? then FieldProblem(b)
      else if FieldProblem(c).Some? then FieldProblem(c)
      else FieldProblem(d)
  {
    ProblemOfFirst(a, [b, c, d]);
    ProblemOfFirst(b, [c, d]);
    ProblemOfFirst(c, [d]);
    ProblemOfFirst(d, []);
    assert [a] + [b, c, d] == [a, b, c, d] && [b] + [c, d] == [b, c, d] && [c] + [d] == [c, d] && [d] + [] == [d];
  }

  lemma FirstTwo(ps: seq<string>)
    requires NoDuplicates(ps) && |ps| > 1
    ensures ps[0] in ps && ps[1] in ps && ps[0] != ps[1]
  {
  }

  lemma AllTheSame(ps: seq<string>, p: string)
    requires ps != [] && NoDuplicates(ps) && forall x :: x in ps ==> x == p
    ensures ps == [p]
  {
    assert ps[0] in ps;
    if |ps| > 1 {
      FirstTwo(ps);
    }
  }

  /** The protocols of a type that carries one. */
  lemma OneProtocol(p: string, raw: seq<string>)
    ensures Protocols([p], raw) == if forall q :: q in raw ==> TrimSpace(q) == p then Success([p]) else Failure(BadProtocol)
  {
    if forall q :: q in raw ==> TrimSpace(q) == p {
      ProtocolsAreNormal([p], raw);
      var ps := Protocols([p], raw).value;
      AllTheSame(ps, p);
    }
  }

  // ---- the verdict ----

  /** The credentials that remain are within their limits, and so are the other two texts. */
  ghost predicate TextsFit(username: string, secret: string, category: string, savePath: string) {
    Fits(username, 256) && Fits(secret, 4096) && Fits(category, 128) && Fits(savePath, 1024)
  }

  /** The spec gets past the checks of type, URL and auth mode. */
  ghost predicate ModeAccepted(parse: UrlParser, raw: ClientSpec) {
    && Known(TrimSpace(raw.kind)) && GoodUrl(parse, TrimSpace(raw.baseUrl))
    && Offers(TrimSpace(raw.kind), TrimSpace(raw.auth))
  }

  /** And past that of the credentials. */
  ghost predicate CredentialsAccepted(parse: UrlParser, raw: ClientSpec) {
    && ModeAccepted(parse, raw)
    && (TrimSpace(raw.auth) == "basic" ==> TrimSpace(raw.username) != "")
    && (TrimSpace(raw.auth) == "token" ==> raw.secret != "")
  }

  ghost function UsernameKept(raw: ClientSpec): string {
    if TrimSpace(raw.auth) == "basic" then TrimSpace(raw.username) else ""
  }

  ghost function SecretKept(raw: ClientSpec): string {
    if TrimSpace(raw.auth) == "none" then "" else raw.secret
  }

  ghost predicate AllAccepted(parse: UrlParser, raw: ClientSpec) {
    && CredentialsAccepted(parse, raw)
    && TextsFit(UsernameKept(raw), SecretKept(raw), TrimSpace(raw.category), TrimSpace(raw.savePath))
    && forall p :: p in raw.protocols ==> TrimSpace(p) == Carries(TrimSpace(raw.kind))
  }

  lemma ModesOfKind(kind: string, auth: string)
    requires Offers(kind, auth)
    ensures auth == "none" || auth == "basic" || auth == "token"
  {
  }

  lemma CredentialsByMode(auth: string, username: string, secret: string)
    ensures auth == "basic" ==>
      Credentials(auth, username, secret) == if username == "" then Failure(NoUsername) else Success((username, secret))
    ensures auth == "token" ==>
      Credentials(auth, username, secret) == if secret == "" then Failure(NoSecret) else Success(("", secret))
    ensures auth == "none" ==> Credentials(auth, username, secret) == Success(("", ""))
  {
    ModesDiffer();
  }

  /** The first three checks and the answer when one of them fails. */
  lemma FirstChecks(parse: UrlParser, raw: ClientSpec)
    ensures var r := Prepared(parse, raw);
            var kind, url := TrimSpace(raw.kind), TrimSpace(raw.baseUrl);
            && (!Known(kind) ==> r == Failure(UnknownType))
            && (Known(kind) && !AbsoluteUrl(parse, url) ==> r == Failure(BadUrl))
            && (Known(kind) && AbsoluteUrl(parse, url) && parse(url).value.hasUser ==> r == Failure(UrlCredentials))
            && (Known(kind) && AbsoluteUrl(parse, url) && !parse(url).value.hasUser && ('?' in url || '#' in url) ==>
                  r == Failure(UrlQuery))
            && (Known(kind) && GoodUrl(parse, url) && !Offers(kind, TrimSpace(raw.auth)) ==> r == Failure(BadAuth))
  {
    CatalogEntries(TrimSpace(raw.kind));
    UrlProblems(parse, TrimSpace(raw.baseUrl));
    if Known(TrimSpace(raw.kind)) {
      TypesOffer(TrimSpace(raw.kind), TrimSpace(raw.auth));
    }
  }

  /** The spec as it is built before its texts and protocols are checked. */
  ghost function Built(raw: ClientSpec): ClientSpec {
    ClientSpec(TrimSpace(raw.id), TrimSpace(raw.kind), TrimSlashes(TrimSpace(raw.baseUrl)), TrimSpace(raw.auth),
               UsernameKept(raw), SecretKept(raw), TrimSpace(raw.category), TrimSpace(raw.savePath), raw.protocols)
  }

  lemma CredentialCheck(parse: UrlParser, raw: ClientSpec)
    requires ModeAccepted(parse, raw)
    ensures var r, auth := Prepared(parse, raw), TrimSpace(raw.auth);
            && (auth == "basic" && TrimSpace(raw.username) == "" ==> r == Failure(NoUsername))
            && (auth == "token" && raw.secret == "" ==> r == Failure(NoSecret))
  {
    UrlProblems(parse, TrimSpace(raw.baseUrl));
    TypesOffer(TrimSpace(raw.kind), TrimSpace(raw.auth));
    CredentialsByMode(TrimSpace(raw.auth), TrimSpace(raw.username), raw.secret);
  }

  lemma LaterChecks(parse: UrlParser, raw: ClientSpec)
    requires CredentialsAccepted(parse, raw)
    ensures Prepared(parse, raw) ==
      match FirstProblem(LimitedFields(Built(raw)))
      case Some(e) => Failure(e)
      case None =>
        match Protocols([Carries(TrimSpace(raw.kind))], raw.protocols)
        case Failure(e) => Failure(e)
        case Success(ps) => Success(Built(raw).(protocols := ps))
  {
    ModesDiffer();
    UrlProblems(parse, TrimSpace(raw.baseUrl));
    TypesOffer(TrimSpace(raw.kind), TrimSpace(raw.auth));
    CredentialsByMode(TrimSpace(raw.auth), TrimSpace(raw.username), raw.secret);
    ModesOfKind(TrimSpace(raw.kind), TrimSpace(raw.auth));
  }

  /** The first text, in the order username, secret, category, save path, that does not fit. */
  lemma TextCheck(s: ClientSpec)
    ensures var e := FirstProblem(LimitedFields(s));
            && (e.None? <==> TextsFit(s.username, s.secret, s.category, s.savePath))
            && (!Fits(s.username, 256) ==> e == Some(Misfit("username", s.username, 256)))
            && (Fits(s.username, 256) && !Fits(s.secret, 4096) ==> e == Some(Misfit("secret", s.secret, 4096)))
            && (Fits(s.username, 256) && Fits(s.secret, 4096) && !Fits(s.category, 128) ==>
                  e == Some(Misfit("category", s.category, 128)))
            && (Fits(s.username, 256) && Fits(s.secret, 4096) && Fits(s.category, 128) && !Fits(s.savePath, 1024) ==>
                  e == Some(Misfit("savePath", s.savePath, 1024)))
  {
    var a, b := Field("username", s.username, 256), Field("secret", s.secret, 4096);
    var c, d := Field("category", s.category, 128), Field("savePath", s.savePath, 1024);
    FirstOfFour(a, b, c, d);
    FieldProblems(a);
    FieldProblems(b);
    FieldProblems(c);
    FieldProblems(d);
  }

  /** Why a text does not fit: its length first. */
  ghost function Misfit(name: string, s: string, limit: nat): SpecError {
    if |s| > limit then TooLong(name) else ControlChars(name)
  }

  /** A spec is accepted exactly when it passes every check. */
  lemma AcceptedExactly(parse: UrlParser, raw: ClientSpec)
    ensures Prepared(parse, raw).Success? <==>
      && Known(TrimSpace(raw.kind))
      && GoodUrl(parse, TrimSpace(raw.baseUrl))
      && Offers(TrimSpace(raw.kind), TrimSpace(raw.auth))
      && (TrimSpace(raw.auth) == "basic" ==> TrimSpace(raw.username) != "" && Fits(TrimSpace(raw.username), 256))
      && (TrimSpace(raw.auth) == "token" ==> raw.secret != "")
      && (TrimSpace(raw.auth) != "none" ==> Fits(raw.secret, 4096))
      && Fits(TrimSpace(raw.category), 128)
      && Fits(TrimSpace(raw.savePath), 1024)
      && forall p :: p in raw.protocols ==> TrimSpace(p) == Carries(TrimSpace(raw.kind))
  {
    FirstChecks(parse, raw);
    if ModeAccepted(parse, raw) {
      CredentialCheck(parse, raw);
    }
    if CredentialsAccepted(parse, raw) {
      LaterChecks(parse, raw);
      TextCheck(Built(raw));
      OneProtocol(Carries(TrimSpace(raw.kind)), raw.protocols);
    }
  }

  lemma LastRefusals(parse: UrlParser, raw: ClientSpec)
    requires CredentialsAccepted(parse, raw)
    ensures var r := Prepared(parse, raw);
            && (r == Failure(BadProtocol) <==>
                  && TextsFit(UsernameKept(raw), SecretKept(raw), TrimSpace(raw.category), TrimSpace(raw.savePath))
                  && exists p :: p in raw.protocols && TrimSpace(p) != Carries(TrimSpace(raw.kind)))
            && (r.Success? || r.error.BadProtocol? || r.error.TooLong? || r.error.ControlChars?)
  {
    LaterChecks(parse, raw);
    TextCheck(Built(raw));
    OneProtocol(Carries(TrimSpace(raw.kind)), raw.protocols);
  }

  /** A spec past the auth mode is refused for its credentials, then for a text, then for its protocols. */
  lemma LateRefusals(parse: UrlParser, raw: ClientSpec)
    requires ModeAccepted(parse, raw)
    ensures var r, auth := Prepared(parse, raw), TrimSpace(raw.auth);
            && (r == Failure(NoUsername) <==> auth == "basic" && TrimSpace(raw.username) == "")
            && (r == Failure(NoSecret) <==> auth == "token" && raw.secret == "")
            && (r == Failure(BadProtocol) <==>
                  && CredentialsAccepted(parse, raw)
                  && TextsFit(UsernameKept(raw), SecretKept(raw), TrimSpace(raw.category), TrimSpace(raw.savePath))
                  && exists p :: p in raw.protocols && TrimSpace(p) != Carries(TrimSpace(raw.kind)))
            && (r.Success? || r.error.NoUsername? || r.error.NoSecret? || r.error.BadProtocol?
                || r.error.TooLong? || r.error.ControlChars?)
  {
    ModesDiffer();
    CredentialCheck(parse, raw);
    if CredentialsAccepted(parse, raw) {
      LastRefusals(parse, raw);
    }
  }

  /** Before that, the type comes first, then the URL, then the auth mode. */
  lemma EarlyRefusals(parse: UrlParser, raw: ClientSpec)
    ensures var r, kind, url := Prepared(parse, raw), TrimSpace(raw.kind), TrimSpace(raw.baseUrl);
            && (r == Failure(UnknownType) <==> !Known(kind))
            && (r == Failure(BadUrl) <==> Known(kind) && !AbsoluteUrl(parse, url))
            && (r == Failure(UrlCredentials) <==> Known(kind) && AbsoluteUrl(parse, url) && parse(url).value.hasUser)
            && (r == Failure(UrlQuery) <==>
                  Known(kind) && AbsoluteUrl(parse, url) && !parse(url).value.hasUser && ('?' in url || '#' in url))
            && (r == Failure(BadAuth) <==> Known(kind) && GoodUrl(parse, url) && !Offers(kind, TrimSpace(raw.auth)))
  {
    FirstChecks(parse, raw);
    if ModeAccepted(parse, raw) {
      LateRefusals(parse, raw);
    }
  }

  /** And which text it is, when it is one. */
  lemma TextRefused(parse: UrlParser, raw: ClientSpec)
    requires CredentialsAccepted(parse, raw)
    ensures var r, username, secret := Prepared(parse, raw), UsernameKept(raw), SecretKept(raw);
            var category, savePath := TrimSpace(raw.category), TrimSpace(raw.savePath);
            && (!Fits(username, 256) ==> r == Failure(Misfit("username", username, 256)))
            && (Fits(username, 256) && !Fits(secret, 4096) ==> r == Failure(Misfit("secret", secret, 4096)))
            && (Fits(username, 256) && Fits(secret, 4096) && !Fits(category, 128) ==>
                  r == Failure(Misfit("category", category, 128)))
            && (Fits(username, 256) && Fits(secret, 4096) && Fits(category, 128) && !Fits(savePath, 1024) ==>
                  r == Failure(Misfit("savePath", savePath, 1024)))
  {
    LaterChecks(parse, raw);
    TextCheck(Built(raw));
  }

  // ---- what an accepted client runs with ----

  /** Each field of an accepted spec is its own field of the spec that was sent, credentials as far as the mode uses them. */
  lemma AcceptedFields(parse: UrlParser, raw: ClientSpec)
    requires Prepared(parse, raw).Success?
    ensures var s := Prepared(parse, raw).value;
            && s.id == TrimSpace(raw.id)
            && s.kind == TrimSpace(raw.kind)
            && s.auth == TrimSpace(raw.auth)
            && s.username == (if s.auth == "basic" then TrimSpace(raw.username) else "")
            && s.secret == (if s.auth == "none" then "" else raw.secret)
            && s.category == TrimSpace(raw.category)
            && s.savePath == TrimSpace(raw.savePath)
            && s.protocols == [if s.kind == "nzbget" then "usenet" else if s.kind == "odownloader" then "http" else "torrent"]
  {
    AcceptedExactly(parse, raw);
    LaterChecks(parse, raw);
    OneProtocol(Carries(TrimSpace(raw.kind)), raw.protocols);
  }

  /** Its URL is the trimmed one that was sent without the slashes at its end, and it is absolute, without user, query and fragment. */
  lemma AcceptedUrl(parse: UrlParser, raw: ClientSpec)
    requires Prepared(parse, raw).Success?
    ensures var url, sent := Prepared(parse, raw).value.baseUrl, TrimSpace(raw.baseUrl);
            && url <= sent && (forall i :: |url| <= i < |sent| ==> sent[i] == '/')
            && (url != "" ==> url[|url| - 1] != '/')
            && 1 <= |sent| <= 2048 && '?' !in sent && '#' !in sent
            && parse(sent).Some? && parse(sent).value.scheme in ["http", "https"]
            && parse(sent).value.host != "" && !parse(sent).value.hasUser
  {
    AcceptedExactly(parse, raw);
    LaterChecksOf(parse, raw);
    TrimSlashesTrims(TrimSpace(raw.baseUrl));
  }

  /** A changed secret changes the fingerprint under every mode that uses one, so the adapter is built anew. */
  lemma SecretIsFingerprinted(parse: UrlParser, raw: ClientSpec, secret: string)
    requires Prepared(parse, raw).Success? && Prepared(parse, raw.(secret := secret)).Success?
    ensures Fingerprint(Prepared(parse, raw).value) == Fingerprint(Prepared(parse, raw.(secret := secret)).value) <==>
      secret == raw.secret || TrimSpace(raw.auth) == "none"
  {
    var other := raw.(secret := secret);
    AcceptedFields(parse, raw);
    AcceptedFields(parse, other);
    LaterChecksOf(parse, raw);
    LaterChecksOf(parse, other);
    PreparedIsNormal(parse, raw);
    PreparedIsNormal(parse, other);
    FingerprintFaithful(Prepared(parse, raw).value, Prepared(parse, other).value);
  }

  lemma LaterChecksOf(parse: UrlParser, raw: ClientSpec)
    requires Prepared(parse, raw).Success?
    ensures Prepared(parse, raw).value.baseUrl == TrimSlashes(TrimSpace(raw.baseUrl))
  {
    AcceptedExactly(parse, raw);
    LaterChecks(parse, raw);
  }
}
