/** DPoP proofs: the client that signs them, and the two verifiers, IdP and gateway (RFC 9449). */
module DpopProof {
  import opened Common
  import opened Bytes
  import opened Jwk
  import Base64Url

  /** What a proof says.  A string claim that is absent reads as "". Times are whole seconds. */
  datatype Proof = Proof(
    alg: string, jwk: Option<Jwk>, htm: string, htu: string, iat: Option<int>, jti: string, ath: string,
    exp: Option<int>, nbf: Option<int>)

  /** A proof with the key whose private half signed it; it verifies under that key and no other. */
  datatype SignedProof = SignedProof(proof: Proof, signer: PublicKey)

  const WINDOW := 60 * SECOND

  predicate InWindow(iat: int, now: int) {
    -WINDOW <= now - iat * SECOND <= WINDOW
  }

  /** The checks of the JWT library on the optional exp and nbf claims. */
  predicate Timely(p: Proof, now: int) {
    (p.exp.Some? ==> now < p.exp.value * SECOND) && (p.nbf.Some? ==> p.nbf.value * SECOND <= now)
  }

  // ----- the htu claim

  function StripHostAndScheme(uri: string): string {
    var i := Index(uri, "://");
    var rest := if i != -1 then uri[i + 3..] else uri;
    var j := Index(rest, "/");
    if j != -1 then rest[j..] else "/"
  }

  predicate VerifyHtu(htu: string, target: string) {
    htu == target || StripHostAndScheme(htu) == StripHostAndScheme(target)
  }

  /** Of a URI with an authority only the path is left. */
  lemma {:induction false} StripLeavesPath(scheme: string, host: string, path: string)
    requires ':' !in scheme && '/' !in host && (path == "" || path[0] == '/')
    ensures StripHostAndScheme(scheme + "://" + host + path) == if path == "" then "/" else path
  {
    var uri, rest := scheme + "://" + host + path, host + path;
    assert uri[..|scheme|] == scheme && uri[|scheme|..|scheme| + 3] == "://" && uri[|scheme| + 3..] == rest;
    IndexOfFirst(uri, "://", |scheme|);
    if path == "" {
      assert rest == host;
      IndexOfAbsent(rest, '/');
    } else {
      assert rest[..|host|] == host && rest[|host|..] == path && rest[|host|..|host| + 1] == "/";
      IndexOfFirst(rest, "/", |host|);
    }
  }

  /** The check is an equivalence between URIs, although it has two branches. */
  lemma HtuIsEquivalence(a: string, b: string, c: string)
    ensures VerifyHtu(a, a)
    ensures VerifyHtu(a, b) <==> VerifyHtu(b, a)
    ensures VerifyHtu(a, b) && VerifyHtu(b, c) ==> VerifyHtu(a, c)
    ensures VerifyHtu(a, b) <==> StripHostAndScheme(a) == StripHostAndScheme(b)
  {
  }

  // ----- the verifiers

  /** VerifyDPoPProof of the gateway: the thumbprint and the jti. */
  function GatewayVerify(h: Hash, sp: SignedProof, method_: string, target: string, accessToken: string, now: int): Result<(string, string)> {
    var p := sp.proof;
    if p.alg !in ["ES256", "ES384", "ES512"] then Err("unexpected signing method")
    else if p.jwk.None? then Err("missing jwk")
    else if p.jwk.value.kty != "EC" || p.jwk.value.crv != "P-256" then Err("DPoP key must be EC P-256")
    else if p.jwk.value.x == "" || p.jwk.value.y == "" then Err("missing X/Y coordinates")
    else if ToEcdsa(p.jwk.value.x, p.jwk.value.y) != Ok(sp.signer) then Err("invalid DPoP proof signature")
    else if !Timely(p, now) then Err("invalid DPoP proof signature")
    else if !EqualFold(p.htm, method_) then Err("invalid htm claim")
    else if !VerifyHtu(p.htu, target) then Err("invalid htu claim")
    else if p.iat.None? then Err("missing or invalid iat claim")
    else if !InWindow(p.iat.value, now) then Err("DPoP proof expired or issued in the future")
    else if p.jti == "" then Err("missing jti claim")
    else if accessToken != "" && p.ath == "" then Err("missing ath claim")
    else if accessToken != "" && p.ath != h.digest(accessToken) then Err("ath claim mismatch")
    else Ok((GatewayThumbprint(h, p.jwk.value.x, p.jwk.value.y), p.jti))
  }

  function BeforeQuery(uri: string): string {
    var i := Index(uri, "?");
    if i == -1 then uri else uri[..i]
  }

  /** VerifyDPoPProof of the IdP. It compares whole URIs without their query, and lets an empty jti pass. */
  function IdpVerify(h: Hash, sp: SignedProof, method_: string, target: string, accessToken: string, now: int): Result<(string, string)> {
    var p := sp.proof;
    if p.alg != "ES256" then Err("invalid signing algorithm")
    else if p.jwk.None? then Err("missing jwk in DPoP header")
    else if ToPublicKey(p.jwk.value) != Ok(sp.signer) then Err("invalid DPoP proof signature")
    else if !Timely(p, now) then Err("invalid DPoP proof signature")
    else if !EqualFold(p.htm, method_) then Err("htm claim mismatch")
    else if !EqualFold(BeforeQuery(p.htu), BeforeQuery(target)) then Err("htu claim mismatch")
    else if p.iat.None? then Err("missing iat claim in DPoP proof")
    else if !InWindow(p.iat.value, now) then Err("dpop proof expired or issued in the future")
    else if accessToken != "" && p.ath == "" then Err("missing ath claim in DPoP proof")
    else if accessToken != "" && p.ath != h.digest(accessToken) then Err("ath claim mismatch")
    else Ok((IdpThumbprint(h, p.jwk.value), p.jti))
  }

  /** `base` is the part of a URI before its query. */
  predicate BaseOf(uri: string, base: string) {
    '?' !in base && (uri == base || (|base| < |uri| && uri[..|base|] == base && uri[|base|] == '?'))
  }

  /** Every URI has a base, */
  lemma {:induction false} HasBase(uri: string)
    ensures BaseOf(uri, BeforeQuery(uri))
  {
    var base := BeforeQuery(uri);
    assert forall j :: 0 <= j < |uri| && uri[j] == '?' ==> StandsAt(uri, "?", j);
    assert forall j :: 0 <= j < |base| ==> base[j] == uri[j];
  }

  /** and only one. */
  lemma {:induction false} OneBase(uri: string, base: string)
    requires BaseOf(uri, base)
    ensures base == BeforeQuery(uri)
  {
    if uri == base {
      IndexOfAbsent(uri, '?');
    } else {
      assert uri[|base|..|base| + 1] == "?";
      IndexOfFirst(uri, "?", |base|);
    }
  }

  /** Exactly which proofs the gateway lets pass for a request to a path at its host. */
  lemma {:induction false} GatewayAcceptsIff(
      h: Hash, sp: SignedProof, method_: string, scheme: string, host: string, path: string, accessToken: string, now: int)
    requires ':' !in scheme && '/' !in host && (path == "" || path[0] == '/')
    ensures var p := sp.proof;
      GatewayVerify(h, sp, method_, scheme + "://" + host + path, accessToken, now).Ok? <==>
        && p.alg in {"ES256", "ES384", "ES512"} && p.jwk.Some? && p.jwk.value.x != "" && p.jwk.value.y != ""
        && ToPublicKey(p.jwk.value) == Ok(sp.signer)
        && (p.exp.Some? ==> now < p.exp.value * SECOND) && (p.nbf.Some? ==> p.nbf.value * SECOND <= now)
        && EqualFold(p.htm, method_) && StripHostAndScheme(p.htu) == (if path == "" then "/" else path)
        && p.iat.Some? && -60 * SECOND <= now - p.iat.value * SECOND <= 60 * SECOND && p.jti != ""
        && (accessToken != "" ==> p.ath != "" && p.ath == h.digest(accessToken))
  {
    StripLeavesPath(scheme, host, path);
    HtuIsEquivalence(sp.proof.htu, scheme + "://" + host + path, "");
  }

  /** Exactly which proofs the IdP lets pass: URIs count without their queries, up to case. */
  lemma {:induction false} IdpAcceptsIff(
      h: Hash, sp: SignedProof, method_: string, target: string, accessToken: string, now: int, claimed: string, called: string)
    requires BaseOf(sp.proof.htu, claimed) && BaseOf(target, called)
    ensures var p := sp.proof;
      IdpVerify(h, sp, method_, target, accessToken, now).Ok? <==>
        && p.alg == "ES256" && p.jwk.Some? && ToPublicKey(p.jwk.value) == Ok(sp.signer)
        && (p.exp.Some? ==> now < p.exp.value * SECOND) && (p.nbf.Some? ==> p.nbf.value * SECOND <= now)
        && EqualFold(p.htm, method_) && EqualFold(claimed, called)
        && p.iat.Some? && -60 * SECOND <= now - p.iat.value * SECOND <= 60 * SECOND
        && (accessToken != "" ==> p.ath != "" && p.ath == h.digest(accessToken))
  {
    OneBase(sp.proof.htu, claimed);
    OneBase(target, called);
  }

  // ----- the client

  function Generated(h: Hash, key: PublicKey, method_: string, uri: string, accessToken: string, now: int, jti: string): SignedProof
    requires OnField(key)
  {
    SignedProof(
      Proof("ES256", Some(Published(key)), method_, uri, Some(now / SECOND), jti,
            if accessToken == "" then "" else h.digest(accessToken), None, None),
      key)
  }

  /** `jti` is the hex text of the 16 random bytes drawn. */
  method GenerateDPoPProof(h: Hash, key: PublicKey, method_: string, uri: string, accessToken: string, now: int, jti: string)
    returns (sp: SignedProof)
    requires OnField(key)
    ensures sp == Generated(h, key, method_, uri, accessToken, now, jti)
  {
    var ath := "";
    if accessToken != "" {
      ath := h.digest(accessToken);
    }
    var xPad := PadCoordinate(ToBytes(key.x));
    var yPad := PadCoordinate(ToBytes(key.y));
    LengthOfBytes(key.x, 32);
    LengthOfBytes(key.y, 32);
    var jwk := Jwk("EC", "P-256", Base64Url.Encode(xPad[..]), Base64Url.Encode(yPad[..]));
    sp := SignedProof(Proof("ES256", Some(jwk), method_, uri, Some(now / SECOND), jti, ath, None, None), key);
  }

  lemma GeneratedKeyChecks(h: Hash, key: PublicKey)
    requires OnField(key)
    ensures Published(key).x != "" && Published(key).y != ""
    ensures ToEcdsa(Published(key).x, Published(key).y) == Ok(key)
  {
    CoordinateShape(key.x);
    CoordinateShape(key.y);
    GatewayReadsBack(key);
  }

  /** A proof signed by the key in its header, with the right ath, is left to its URI and its time. */
  lemma {:induction false} WellMadeAtGateway(h: Hash, sp: SignedProof, jwk: Jwk, target: string, accessToken: string, now: int)
    requires var p := sp.proof;
      && p.alg == "ES256" && p.jwk == Some(jwk) && jwk.kty == "EC" && jwk.crv == "P-256" && jwk.x != "" && jwk.y != ""
      && ToEcdsa(jwk.x, jwk.y) == Ok(sp.signer) && p.iat.Some? && p.exp.None? && p.nbf.None? && p.jti != ""
      && (accessToken != "" ==> p.ath != "" && p.ath == h.digest(accessToken))
    ensures var v := GatewayVerify(h, sp, sp.proof.htm, target, accessToken, now);
      && (v.Ok? <==> InWindow(sp.proof.iat.value, now) && VerifyHtu(sp.proof.htu, target))
      && (v.Ok? ==> v.value == (GatewayThumbprint(h, jwk.x, jwk.y), sp.proof.jti))
  {
  }

  /**
   * A generated proof passes the gateway for the same method and token exactly while the clock is
   * within the window and the URIs match, and yields the client's thumbprint and the jti drawn.
   */
  lemma {:induction false} GeneratedProofPassesGateway(
      h: Hash, key: PublicKey, method_: string, uri: string, target: string, accessToken: string,
      generatedAt: int, jti: string, now: int)
    requires OnField(key) && jti != "" && (accessToken == "" || h.digest(accessToken) != "")
    ensures var v := GatewayVerify(h, Generated(h, key, method_, uri, accessToken, generatedAt, jti), method_, target, accessToken, now);
      && (v.Ok? <==> InWindow(generatedAt / SECOND, now) && VerifyHtu(uri, target))
      && (v.Ok? ==> v.value == (ClientThumbprint(h, key), jti))
  {
    GeneratedKeyChecks(h, key);
    ThumbprintsAgree(h, key);
    WellMadeAtGateway(h, Generated(h, key, method_, uri, accessToken, generatedAt, jti), Published(key), target, accessToken, now);
  }

  /** In particular under any rewritten scheme and host. */
  lemma {:induction false} GeneratedProofSurvivesProxy(
      h: Hash, key: PublicKey, method_: string, accessToken: string, generatedAt: int, jti: string, now: int,
      scheme: string, host: string, scheme': string, host': string, path: string)
    requires OnField(key) && jti != "" && (accessToken == "" || h.digest(accessToken) != "")
    requires ':' !in scheme && ':' !in scheme' && '/' !in host && '/' !in host' && (path == "" || path[0] == '/')
    requires InWindow(generatedAt / SECOND, now)
    ensures GatewayVerify(h, Generated(h, key, method_, scheme + "://" + host + path, accessToken, generatedAt, jti),
                          method_, scheme' + "://" + host' + path, accessToken, now)
      == Ok((ClientThumbprint(h, key), jti))
  {
    StripLeavesPath(scheme, host, path);
    StripLeavesPath(scheme', host', path);
    GeneratedProofPassesGateway(h, key, method_, scheme + "://" + host + path, scheme' + "://" + host' + path,
                                accessToken, generatedAt, jti, now);
  }

  lemma {:induction false} WellMadeAtIdp(h: Hash, sp: SignedProof, jwk: Jwk, target: string, now: int)
    requires var p := sp.proof;
      p.alg == "ES256" && p.jwk == Some(jwk) && ToPublicKey(jwk) == Ok(sp.signer) && p.iat.Some? && p.exp.None? && p.nbf.None?
    ensures var v := IdpVerify(h, sp, sp.proof.htm, target, "", now);
      && (v.Ok? <==> InWindow(sp.proof.iat.value, now) && EqualFold(BeforeQuery(sp.proof.htu), BeforeQuery(target)))
      && (v.Ok? ==> v.value == (IdpThumbprint(h, jwk), sp.proof.jti))
  {
  }

  /** At the IdP the same proof needs the same URI up to case and query. */
  lemma {:induction false} GeneratedProofPassesIdp(
      h: Hash, key: PublicKey, method_: string, uri: string, target: string, generatedAt: int, jti: string, now: int,
      claimed: string, called: string)
    requires OnField(key) && BaseOf(uri, claimed) && BaseOf(target, called)
    ensures var v := IdpVerify(h, Generated(h, key, method_, uri, "", generatedAt, jti), method_, target, "", now);
      && (v.Ok? <==> InWindow(generatedAt / SECOND, now) && EqualFold(claimed, called))
      && (v.Ok? ==> v.value == (ClientThumbprint(h, key), jti))
  {
    OneBase(uri, claimed);
    OneBase(target, called);
    GeneratedKeyChecks(h, key);
    IdpReadsBack(key);
    ThumbprintsAgree(h, key);
    WellMadeAtIdp(h, Generated(h, key, method_, uri, "", generatedAt, jti), Published(key), target, now);
  }

  /** In terms of the moment of signing: it passes for 60 s less the rounding of iat, and 60 s before. */
  lemma WindowAroundSigning(generatedAt: int, now: int)
    ensures InWindow(generatedAt / SECOND, now) <==> -WINDOW <= now - (generatedAt - generatedAt % SECOND) <= WINDOW
    ensures 0 <= now - generatedAt <= WINDOW - SECOND ==> InWindow(generatedAt / SECOND, now)
  {
  }
}
