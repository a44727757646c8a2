// HS256 tokens (src/security/jwt_handler.cpp): compact serialization, section 7.1 of
// RFC 7515, and the expiry check, section 4.1.4 of RFC 7519.
module Jwt {
  import opened Common
  import opened Base64

  datatype Role = Admin | Operator | Viewer

  datatype Claims = Claims(userId: string, username: string, role: Role)

  // JSON object members as far as the handler tells them apart.
  datatype Value = Text(text: string) | Number(number: int) | Other

  type Members = map<string, Value>

  // A parsed document: an object, or a document on which value() throws.
  datatype Json = Object(members: Members) | NotObject

  // The code of other libraries: HMAC-SHA256 under m_secret, and nlohmann's dump and parse.
  datatype Library = Library(
    hmac: string -> seq<byte>,
    dump: Members -> seq<byte>,
    parse: seq<byte> -> Option<Json>)

  // Dumping a document of texts and numbers loses nothing.
  ghost predicate Faithful(lib: Library) {
    forall m: Members | Other !in m.Values :: lib.parse(lib.dump(m)) == Some(Object(m))
  }

  function RoleToString(role: Role): string {
    match role
    case Admin => "Admin"
    case Operator => "Operator"
    case Viewer => "Viewer"
  }

  function RoleFromString(s: string): Role {
    if s == "Admin" then Admin else if s == "Operator" then Operator else Viewer
  }

  function Header(): Members { map["alg" := Text("HS256"), "typ" := Text("JWT")] }

  function Payload(claims: Claims, iat: int, exp: int): Members {
    map["sub" := Text(claims.userId), "username" := Text(claims.username),
        "role" := Text(RoleToString(claims.role)), "iat" := Number(iat), "exp" := Number(exp)]
  }

  function Seal(lib: Library, signingInput: string): string {
    signingInput + "." + UrlText(lib.hmac(signingInput))
  }

  function Token(lib: Library, claims: Claims, iat: int, exp: int): string {
    Seal(lib, UrlText(lib.dump(Header())) + "." + UrlText(lib.dump(Payload(claims, iat, exp))))
  }

  // Generate, at clock reading `now`.
  function Generate(lib: Library, claims: Claims, expirySeconds: int, now: int): string {
    Token(lib, claims, now, now + expirySeconds)
  }

  // ── Verify ─────────────────────────────────────────────────────────────────

  // payload.value(key, default): None when it throws a type_error.
  function TextMember(m: Members, key: string, default: string): Option<string> {
    if key !in m then Some(default)
    else match m[key] case Text(t) => Some(t) case _ => None
  }

  function NumberMember(m: Members, key: string, default: int): Option<int> {
    if key !in m then Some(default)
    else match m[key] case Number(n) => Some(n) case _ => None
  }

  // The positions of the first two dots.
  function TwoDots(token: string): (r: Option<(nat, nat)>)
    ensures r.Some? ==> r.value.0 < r.value.1 < |token|
  {
    match IndexOf(token, '.', 0)
    case None => None
    case Some(d1) =>
      match IndexOf(token, '.', d1 + 1)
      case None => None
      case Some(d2) => Some((d1, d2))
  }

  // The comparison over the shorter length, and that of the lengths.
  predicate SignatureMatches(expected: string, sig: string) {
    var n := if |expected| < |sig| then |expected| else |sig|;
    !(expected[..n] != sig[..n] || |expected| != |sig|)
  }

  predicate SignatureOk(lib: Library, token: string) {
    match TwoDots(token)
    case None => false
    case Some((d1, d2)) => SignatureMatches(UrlText(lib.hmac(token[..d2])), token[d2 + 1..])
  }

  function ReadClaims(m: Members): Outcome<Claims> {
    match (TextMember(m, "sub", ""), TextMember(m, "username", ""), TextMember(m, "role", "Viewer"))
    case (Some(sub), Some(name), Some(role)) => Returned(Ok(Claims(sub, name, RoleFromString(role))))
    case _ => Threw
  }

  // The rest of Verify, once the signature holds.
  function CheckPayload(parsed: Option<Json>, now: int): Outcome<Claims> {
    match parsed
    case None => Returned(Err(AuthorizationFailed))
    case Some(NotObject) => Threw
    case Some(Object(m)) =>
      match NumberMember(m, "exp", 0)
      case None => Threw
      case Some(exp) => if now > exp then Returned(Err(TokenExpired)) else ReadClaims(m)
  }

  function Verify(lib: Library, token: string, now: int): Outcome<Claims> {
    if !SignatureOk(lib, token) then Returned(Err(AuthorizationFailed))
    else
      var (d1, d2) := TwoDots(token).value;
      CheckPayload(lib.parse(UrlDecoded(token[d1 + 1..d2])), now)
  }

  // ── Properties ─────────────────────────────────────────────────────────────

  lemma {:induction false} NoDots(data: seq<byte>)
    ensures '.' !in UrlText(data)
  {
    TextShape(data);
  }

  lemma {:induction false} SplitsAt(h: string, p: string, s: string)
    requires '.' !in h && '.' !in p
    ensures var token := (h + "." + p) + "." + s;
      && TwoDots(token) == Some((|h|, |h| + 1 + |p|))
      && token[..|h| + 1 + |p|] == h + "." + p
      && token[|h| + 1..|h| + 1 + |p|] == p && token[|h| + 2 + |p|..] == s
  {
    var token := (h + "." + p) + "." + s;
    assert token[0..|h|] == h;
    IndexOfSeparator(token, '.', 0, |h|);
    assert token[|h| + 1..|h| + 1 + |p|] == p;
    IndexOfSeparator(token, '.', |h| + 1, |h| + 1 + |p|);
  }

  // How the seal of a text with one dot is read back.
  lemma {:induction false} SealSplits(lib: Library, h: string, p: string)
    requires '.' !in h && '.' !in p
    ensures var token := Seal(lib, h + "." + p);
      && SignatureOk(lib, token)
      && TwoDots(token) == Some((|h|, |h| + 1 + |p|))
      && token[..|h| + 1 + |p|] == h + "." + p
      && token[|h| + 1..|h| + 1 + |p|] == p
  {
    hide UrlText;
    SplitsAt(h, p, UrlText(lib.hmac(h + "." + p)));
  }

  ghost predicate IsSealOf(lib: Library, token: string, h: string, p: string) {
    '.' !in h && '.' !in p && token == Seal(lib, h + "." + p)
  }

  lemma {:induction false} AcceptedIsSeal(lib: Library, token: string) returns (h: string, p: string)
    requires SignatureOk(lib, token)
    ensures IsSealOf(lib, token, h, p)
  {
    hide UrlText;
    var (d1, d2) := TwoDots(token).value;
    h, p := token[..d1], token[d1 + 1..d2];
    assert token[0..d1] == h;
    assert token[..d2] == h + "." + p;
    var sig, expected := token[d2 + 1..], UrlText(lib.hmac(token[..d2]));
    assert sig[..|sig|] == sig && expected[..|expected|] == expected;
    assert token == token[..d2] + "." + sig;
  }

  // A token is accepted by the signature check iff it is the seal of a text with one dot.
  lemma {:induction false} SignatureOkIff(lib: Library, token: string)
    ensures SignatureOk(lib, token) <==> exists h, p :: IsSealOf(lib, token, h, p)
  {
    hide SignatureOk, Seal;
    if SignatureOk(lib, token) {
      var h, p := AcceptedIsSeal(lib, token);
    }
    forall h, p | IsSealOf(lib, token, h, p) ensures SignatureOk(lib, token) {
      SealSplits(lib, h, p);
    }
  }

  lemma {:induction false} SealDots(lib: Library, h: string, p: string)
    requires '.' !in h && '.' !in p
    ensures multiset(Seal(lib, h + "." + p))['.'] == 2
  {
    hide UrlText;
    NoDots(lib.hmac(h + "." + p));
    var s := UrlText(lib.hmac(h + "." + p));
    assert multiset(h + "." + p + "." + s) == multiset(h) + multiset(".") + multiset(p) + multiset(".") + multiset(s);
  }

  // An accepted token has exactly two dots, and no other token with its signing input
  // is accepted.
  lemma {:induction false} AcceptedTokenIsUnique(lib: Library, token: string, other: string)
    requires SignatureOk(lib, token)
    ensures multiset(token)['.'] == 2
    ensures SignatureOk(lib, other) && other[..TwoDots(other).value.1] == token[..TwoDots(token).value.1]
      ==> other == token
  {
    hide UrlText, TwoDots;
    var h, p := AcceptedIsSeal(lib, token);
    SealSplits(lib, h, p);
    SealDots(lib, h, p);
    if SignatureOk(lib, other) {
      var h2, p2 := AcceptedIsSeal(lib, other);
      SealSplits(lib, h2, p2);
    }
  }

  lemma {:induction false} TokenSplits(lib: Library, claims: Claims, iat: int, exp: int)
    ensures var token := Token(lib, claims, iat, exp);
      && SignatureOk(lib, token)
      && UrlDecoded(token[TwoDots(token).value.0 + 1..TwoDots(token).value.1]) == lib.dump(Payload(claims, iat, exp))
  {
    hide UrlText, UrlDecoded, Seal, SignatureOk, TwoDots, Payload, Header;
    var header, payload := lib.dump(Header()), lib.dump(Payload(claims, iat, exp));
    NoDots(header);
    NoDots(payload);
    SealSplits(lib, UrlText(header), UrlText(payload));
    UrlRoundTrip(payload);
  }

  lemma {:induction false} PayloadMembers(claims: Claims, iat: int, exp: int)
    ensures var m := Payload(claims, iat, exp);
      && Other !in m.Values
      && "sub" in m && m["sub"] == Text(claims.userId) && "username" in m && m["username"] == Text(claims.username)
      && "role" in m && m["role"] == Text(RoleToString(claims.role))
      && "iat" in m && m["iat"] == Number(iat) && "exp" in m && m["exp"] == Number(exp)
  {
  }

  lemma {:induction false} CheckOwnPayload(claims: Claims, iat: int, exp: int, now: int)
    ensures CheckPayload(Some(Object(Payload(claims, iat, exp))), now) ==
      Returned(if now <= exp then Ok(claims) else Err(TokenExpired))
  {
    PayloadMembers(claims, iat, exp);
    assert RoleFromString(RoleToString(claims.role)) == claims.role;
  }

  // Verifying a token gives back the claims exactly, up to and including its expiry second.
  lemma {:induction false} VerifyToken(lib: Library, claims: Claims, iat: int, exp: int, now: int)
    requires Faithful(lib)
    ensures Verify(lib, Token(lib, claims, iat, exp), now) ==
      Returned(if now <= exp then Ok(claims) else Err(TokenExpired))
  {
    hide Token, Payload, SignatureOk, TwoDots, UrlDecoded, CheckPayload;
    var token, m := Token(lib, claims, iat, exp), Payload(claims, iat, exp);
    TokenSplits(lib, claims, iat, exp);
    PayloadMembers(claims, iat, exp);
    assert Verify(lib, token, now) == CheckPayload(lib.parse(lib.dump(m)), now);
    CheckOwnPayload(claims, iat, exp, now);
  }

  // Two issued tokens are the same text iff all five payload values agree.
  lemma {:induction false} TokensEqualIff(lib: Library, c1: Claims, iat1: int, exp1: int, c2: Claims, iat2: int, exp2: int)
    requires Faithful(lib)
    ensures Token(lib, c1, iat1, exp1) == Token(lib, c2, iat2, exp2) <==>
      c1.userId == c2.userId && c1.username == c2.username && c1.role == c2.role && iat1 == iat2 && exp1 == exp2
  {
    hide Token, UrlDecoded, TwoDots, SignatureOk;
    if Token(lib, c1, iat1, exp1) == Token(lib, c2, iat2, exp2) {
      TokenSplits(lib, c1, iat1, exp1);
      TokenSplits(lib, c2, iat2, exp2);
      PayloadMembers(c1, iat1, exp1);
      PayloadMembers(c2, iat2, exp2);
      assert Payload(c1, iat1, exp1) == Payload(c2, iat2, exp2);
      assert RoleFromString(RoleToString(c1.role)) == c1.role && RoleFromString(RoleToString(c2.role)) == c2.role;
    }
  }

  // The parts of an issued token as the compact serialization wants them: header, payload
  // and the HMAC of their encoded forms, each encoded and joined by dots.
  lemma {:induction false} TokenParts(lib: Library, claims: Claims, iat: int, exp: int)
    requires Faithful(lib)
    ensures var token := Token(lib, claims, iat, exp);
      var role := match claims.role case Admin => "Admin" case Operator => "Operator" case Viewer => "Viewer";
      && TwoDots(token).Some?
      && var (d1, d2) := TwoDots(token).value;
      && lib.parse(UrlDecoded(token[..d1])) == Some(Object(map["alg" := Text("HS256"), "typ" := Text("JWT")]))
      && lib.parse(UrlDecoded(token[d1 + 1..d2])) == Some(Object(map[
           "sub" := Text(claims.userId), "username" := Text(claims.username), "role" := Text(role),
           "iat" := Number(iat), "exp" := Number(exp)]))
      && UrlDecoded(token[d2 + 1..]) == lib.hmac(token[..d2])
  {
    hide UrlText, UrlDecoded, SignatureOk, TwoDots;
    var header, payload := lib.dump(Header()), lib.dump(Payload(claims, iat, exp));
    var h, p := UrlText(header), UrlText(payload);
    NoDots(header);
    NoDots(payload);
    SplitsAt(h, p, UrlText(lib.hmac(h + "." + p)));
    assert (h + "." + p + "." + UrlText(lib.hmac(h + "." + p)))[..|h|] == h;
    UrlRoundTrip(header);
    UrlRoundTrip(payload);
    UrlRoundTrip(lib.hmac(h + "." + p));
    assert Other !in Header().Values && Other !in Payload(claims, iat, exp).Values;
  }

  // What Verify answers otherwise: AuthorizationFailed to a text that is no seal and to a
  // payload that does not parse; TokenExpired by `exp`, 0 if missing, before any claim is
  // read; empty claims and Viewer for missing ones and for an unknown role; and an exception
  // for a payload that is no object or has members of the wrong type.
  lemma {:induction false} VerifyOtherwise(lib: Library, token: string, h: string, p: string, now: int)
    ensures !SignatureOk(lib, token) ==> Verify(lib, token, now) == Returned(Err(AuthorizationFailed))
    ensures IsSealOf(lib, token, h, p) ==>
      match lib.parse(UrlDecoded(p))
      case None => Verify(lib, token, now) == Returned(Err(AuthorizationFailed))
      case Some(NotObject) => Verify(lib, token, now) == Threw
      case Some(Object(m)) =>
        && ("exp" in m && !m["exp"].Number? ==> Verify(lib, token, now) == Threw)
        && ("exp" in m && m["exp"].Number? && now > m["exp"].number ==> Verify(lib, token, now) == Returned(Err(TokenExpired)))
        && ("exp" !in m && now > 0 ==> Verify(lib, token, now) == Returned(Err(TokenExpired)))
        && ((if "exp" in m then m["exp"].Number? && now <= m["exp"].number else now <= 0) ==>
              && ("sub" in m && !m["sub"].Text? ==> Verify(lib, token, now) == Threw)
              && ("sub" !in m && "username" !in m && "role" !in m ==>
                    Verify(lib, token, now) == Returned(Ok(Claims("", "", Viewer))))
              && ("sub" in m && m["sub"].Text? && "username" in m && m["username"].Text? && "role" in m && m["role"].Text? ==>
                    var role := m["role"].text;
                    Verify(lib, token, now) == Returned(Ok(Claims(m["sub"].text, m["username"].text,
                      if role == "Admin" then Admin else if role == "Operator" then Operator else Viewer)))))
  {
    hide SignatureOk, UrlDecoded, Seal, TwoDots;
    if IsSealOf(lib, token, h, p) {
      SealSplits(lib, h, p);
    }
  }
}
