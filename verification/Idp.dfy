/** The identity provider: authorization codes with PKCE, and the tokens bound to a client's key. */
module Idp {
  import opened Common
  import opened Jwk
  import opened DpopProof
  import opened TtlStore
  import ReplayCache

  const CODE_TTL := 300 * SECOND
  const TOKEN_TTL := 60 * SECOND

  // ----- the registered clients

  /** RegisteredClients, with the secret of each. */
  function SecretOf(client: string): Option<string> {
    if client == "client-alice" then Some("alice-secure-secret-2026")
    else if client == "client-bob" then Some("bob-secure-secret-2026")
    else if client == "client-evil" then Some("evil-secure-secret-2026")
    else None
  }

  predicate Registered(client: string) {
    client == "client-alice" || client == "client-bob" || client == "client-evil"
  }

  function TenantOf(client: string): string {
    if client == "client-alice" then "11111111-1111-1111-1111-111111111111"
    else if client == "client-bob" then "22222222-2222-2222-2222-222222222222"
    else if client == "client-evil" then "66666666-6666-6666-6666-666666666666"
    else "88888888-8888-8888-8888-888888888888"
  }

  function RoleOf(client: string): string {
    if client == "client-alice" then "operator"
    else if client == "client-bob" then "viewer"
    else if client == "client-evil" then "attacker"
    else "guest"
  }

  // ----- messages

  /** Whether the redirect URI parses is taken from outside. */
  datatype AuthorizeQuery = AuthorizeQuery(
    responseType: string, clientId: string, redirectUri: string, codeChallenge: string, codeChallengeMethod: string,
    clientSecret: string, redirectParses: bool, wantsJson: bool)

  datatype IdpError =
    MethodNotAllowed | InvalidRequest | InvalidClient | InvalidGrant | UnsupportedGrantType | InvalidDpopProof

  /** `Sent` carries the code to whoever asked, as JSON or in a redirect. */
  datatype AuthorizeReply = Declined(error: IdpError) | Sent(code: string)

  /** The DPoP header of a request. */
  datatype ProofHeader = NoProof | Malformed | Signed(sp: SignedProof)

  datatype TokenForm = TokenForm(
    isPost: bool, parses: bool, grantType: string, code: string, codeVerifier: string, clientSecret: string,
    header: ProofHeader, uri: string)

  datatype Claims = Claims(sub: string, tenantId: string, role: string, scope: string, exp: int, iat: int, jkt: string)

  // ----- the steps of the two handlers

  /** The checks of AuthorizeHandler before it draws a code. */
  function CheckAuthorize(q: AuthorizeQuery): Option<IdpError> {
    if q.responseType != "code" || q.clientId == "" then Some(InvalidRequest)
    else if SecretOf(q.clientId).None? then Some(InvalidClient)
    else if q.redirectUri == "" || q.codeChallenge == "" || q.codeChallengeMethod != "S256" then Some(InvalidRequest)
    else None
  }

  /** What it answers once the code is saved: the code may be withheld, but it stays saved. */
  function AuthorizeReplyOf(q: AuthorizeQuery, code: string): AuthorizeReply {
    if !q.redirectParses then Declined(InvalidRequest)
    else if q.wantsJson && Some(q.clientSecret) != SecretOf(q.clientId) then Declined(InvalidClient)
    else Sent(code)
  }

  predicate VerifyPkce(h: Hash, verifier: string, challenge: string, method_: string) {
    method_ == "S256" && h.digest(verifier) == challenge
  }

  /** The checks of TokenHandler before it touches the store. */
  function CheckForm(form: TokenForm): Option<IdpError> {
    if !form.isPost then Some(MethodNotAllowed)
    else if !form.parses then Some(InvalidRequest)
    else if form.grantType != "authorization_code" then Some(UnsupportedGrantType)
    else if form.code == "" || form.codeVerifier == "" then Some(InvalidRequest)
    else None
  }

  datatype Redemption = Rejected(error: IdpError) | Redeemed(challenge: string, client: string)

  /** What it makes of the stored code, which is gone by then whatever the outcome. */
  function CheckCode(h: Hash, form: TokenForm, found: Option<(string, string)>): Redemption {
    if found.None? then Rejected(InvalidGrant)
    else
      var (challenge, client) := found.value;
      if SecretOf(client) != Some(form.clientSecret) || form.clientSecret == "" then Rejected(InvalidClient)
      else if !VerifyPkce(h, form.codeVerifier, challenge, "S256") then Rejected(InvalidGrant)
      else Redeemed(challenge, client)
  }

  /** The proof: the thumbprint and the jti. */
  function CheckProof(h: Hash, form: TokenForm, now: int): Result<(string, string)> {
    if form.header.NoProof? then Err("missing DPoP header proof")
    else if form.header.Malformed? then Err("invalid DPoP proof")
    else IdpVerify(h, form.header.sp, "POST", form.uri, "", now)
  }

  function ProofError(form: TokenForm): IdpError {
    if form.header.NoProof? then InvalidRequest else InvalidDpopProof
  }

  /** Times in claims are whole seconds. */
  function ClaimsFor(client: string, jkt: string, now: int): Claims {
    Claims(client, TenantOf(client), RoleOf(client), "transfer balance", (now + TOKEN_TTL) / SECOND, now / SECOND, jkt)
  }

  // ----- what the mapping of clients gives

  /** The three registered clients have three tenants, none of them the guest's, */
  lemma TenantsIdentifyClients(a: string, b: string)
    requires Registered(a) && Registered(b) && TenantOf(a) == TenantOf(b)
    ensures a == b && TenantOf(a) != "88888888-8888-8888-8888-888888888888"
  {
    assert TenantOf(a)[0] == TenantOf(b)[0] && TenantOf(a)[0] != '8';
  }

  /** and three secrets. */
  lemma SecretsIdentifyClients(a: string, b: string)
    requires Registered(a) && Registered(b) && SecretOf(a) == SecretOf(b)
    ensures a == b
  {
    assert SecretOf(a).value[0] == SecretOf(b).value[0];
  }

  /** Which tenant is whose. */
  lemma TenantsOfClients(client: string)
    ensures TenantOf(client) == "11111111-1111-1111-1111-111111111111" <==> client == "client-alice"
    ensures TenantOf(client) == "22222222-2222-2222-2222-222222222222" <==> client == "client-bob"
    ensures TenantOf(client) == "66666666-6666-6666-6666-666666666666" <==> client == "client-evil"
    ensures TenantOf(client) == "88888888-8888-8888-8888-888888888888" <==> !Registered(client)
  {
    assert TenantOf(client)[0] in {'1', '2', '6', '8'};
  }

  /** And who is what. */
  lemma RolesOfClients(client: string)
    ensures RoleOf(client) == "operator" <==> client == "client-alice"
    ensures RoleOf(client) == "viewer" <==> client == "client-bob"
    ensures RoleOf(client) == "attacker" <==> client == "client-evil"
    ensures RoleOf(client) == "guest" <==> !Registered(client)
  {
    assert RoleOf(client)[0] in {'o', 'v', 'a', 'g'};
  }

  // ----- what the checks of the handlers let pass

  /** A code is drawn for exactly these requests; and of the refused ones a client that names itself wrongly is told so. */
  lemma CheckAuthorizeIff(q: AuthorizeQuery)
    ensures CheckAuthorize(q).None? <==>
      && q.responseType == "code" && Registered(q.clientId) && q.redirectUri != "" && q.codeChallenge != ""
      && q.codeChallengeMethod == "S256"
    ensures CheckAuthorize(q) == Some(InvalidClient) <==> q.responseType == "code" && q.clientId != "" && !Registered(q.clientId)
    ensures CheckAuthorize(q).Some? ==> CheckAuthorize(q).value in {InvalidRequest, InvalidClient}
  {
  }

  /** A token request goes on to the store with exactly these forms. */
  lemma CheckFormIff(form: TokenForm)
    ensures CheckForm(form).None? <==>
      form.isPost && form.parses && form.grantType == "authorization_code" && form.code != "" && form.codeVerifier != ""
    ensures CheckForm(form) == Some(MethodNotAllowed) <==> !form.isPost
    ensures CheckForm(form) == Some(UnsupportedGrantType) <==> form.isPost && form.parses && form.grantType != "authorization_code"
    ensures CheckForm(form).Some? ==> CheckForm(form).value in {MethodNotAllowed, InvalidRequest, UnsupportedGrantType}
  {
  }

  /** A code redeems for its own client alone, which shows its secret and the verifier of the challenge. */
  lemma CheckCodeIff(h: Hash, form: TokenForm, challenge: string, client: string)
    ensures var r := CheckCode(h, form, Some((challenge, client)));
      var known := Registered(client) && SecretOf(client) == Some(form.clientSecret);
      && (r == Redemption.Redeemed(challenge, client) <==> known && h.digest(form.codeVerifier) == challenge)
      && (r == Rejected(InvalidClient) <==> !known)
      && (r == Rejected(InvalidGrant) <==> known && h.digest(form.codeVerifier) != challenge)
  {
    RegisteredHaveSecrets(client);
    assert SecretOf(client).Some? ==> |SecretOf(client).value| > 0;
  }

  lemma RegisteredHaveSecrets(client: string)
    ensures SecretOf(client).Some? <==> Registered(client)
  {
  }

  /** A token lives for more than 59 and at most 60 seconds: exp is rounded down. */
  lemma TokenLifetime(client: string, jkt: string, issuedAt: int, now: int)
    ensures var live := now < ClaimsFor(client, jkt, issuedAt).exp * SECOND;
      (live ==> now < issuedAt + 60 * SECOND) && (now <= issuedAt + 59 * SECOND ==> live)
  {
  }

  // ----- the handlers

  /** What the store holds, as values. */
  datatype Store = Store(codes: map<string, CodeInfo>, jtis: map<string, int>)

  function Authorized(store: Store, q: AuthorizeQuery, code: string, now: int): (AuthorizeReply, Store) {
    if CheckAuthorize(q).Some? then (Declined(CheckAuthorize(q).value), store)
    else (AuthorizeReplyOf(q, code), store.(codes := store.codes[code := CodeInfo(q.codeChallenge, q.clientId, now + CODE_TTL)]))
  }

  /** Exactly when a code is saved, what with, and what becomes of it: it is sent, or withheld for one of two reasons. */
  lemma {:induction false} AuthorizedIff(store: Store, q: AuthorizeQuery, code: string, now: int)
    ensures var (reply, after) := Authorized(store, q, code, now);
      var drawn := q.responseType == "code" && Registered(q.clientId) && q.redirectUri != "" && q.codeChallenge != ""
                   && q.codeChallengeMethod == "S256";
      var known := SecretOf(q.clientId) == Some(q.clientSecret);
      && after.jtis == store.jtis
      && after.codes == (if drawn then store.codes[code := CodeInfo(q.codeChallenge, q.clientId, now + 300 * SECOND)] else store.codes)
      && (reply.Sent? <==> drawn && q.redirectParses && (q.wantsJson ==> known)) && (reply.Sent? ==> reply.code == code)
      && (reply == Declined(InvalidClient) <==>
            || (q.responseType == "code" && q.clientId != "" && !Registered(q.clientId))
            || (drawn && q.redirectParses && q.wantsJson && !known))
      && (reply.Declined? ==> reply.error in {InvalidRequest, InvalidClient})
  {
    CheckAuthorizeIff(q);
  }

  datatype TokenReply = Denied(error: IdpError) | Issued(claims: Claims)

  /** The readings of the clock during one call, in order. */
  datatype Times = Times(redeem: int, proof: int, jti: int, sign: int)

  /** TokenHandler when no other call comes in between. */
  function Exchanged(h: Hash, store: Store, form: TokenForm, t: Times): (TokenReply, Store) {
    if CheckForm(form).Some? then (Denied(CheckForm(form).value), store)
    else
      var (found, codes) := Redeem(store.codes, form.code, t.redeem);
      var redeemed := store.(codes := codes);
      var r := CheckCode(h, form, found);
      if r.Rejected? then (Denied(r.error), redeemed)
      else
        Admitted(redeemed, r.client, CheckProof(h, form, t.proof), ProofError(form), t)
  }

  /** What becomes of a client whose code is redeemed, by what its proof has shown. */
  function Admitted(store: Store, client: string, p: Result<(string, string)>, error: IdpError, t: Times): (TokenReply, Store) {
    if p.Err? then (Denied(error), store)
    else
      var (used, jtis) := CheckAndSave(store.jtis, p.value.1, ReplayCache.JTI_TTL, t.jti);
      if used then (Denied(InvalidDpopProof), store.(jtis := jtis))
      else (Issued(ClaimsFor(client, p.value.0, t.sign)), store.(jtis := jtis))
  }

  /** The form is in order and redeems its code: not run out, by the client it was drawn for, with secret and verifier. */
  predicate Granted(h: Hash, codes: map<string, CodeInfo>, form: TokenForm, at: int) {
    && form.isPost && form.parses && form.grantType == "authorization_code" && form.code != "" && form.codeVerifier != ""
    && form.code in codes
    && var info := codes[form.code];
       && at <= info.expiresAt && Registered(info.client) && SecretOf(info.client) == Some(form.clientSecret)
       && h.digest(form.codeVerifier) == info.challenge
  }

  lemma {:induction false} GrantedIff(h: Hash, codes: map<string, CodeInfo>, form: TokenForm, at: int)
    ensures Granted(h, codes, form, at) <==> CheckForm(form).None? && CheckCode(h, form, Redeem(codes, form.code, at).0).Redeemed?
  {
    CheckFormIff(form);
    if form.code in codes {
      CheckCodeIff(h, form, codes[form.code].challenge, codes[form.code].client);
    }
  }

  lemma {:induction false} ProofShows(h: Hash, form: TokenForm, at: int)
    ensures var p := CheckProof(h, form, at);
      && (p.Ok? <==> form.header.Signed? && IdpVerify(h, form.header.sp, "POST", form.uri, "", at).Ok?)
      && (p.Ok? ==> form.header.sp.proof.jwk.Some? && p.value.0 == IdpThumbprint(h, form.header.sp.proof.jwk.value))
      && (p.Ok? ==> p.value.1 == form.header.sp.proof.jti)
  {
  }

  lemma {:induction false} NotIssuedUngranted(h: Hash, store: Store, form: TokenForm, t: Times)
    requires CheckForm(form).Some? || CheckCode(h, form, Redeem(store.codes, form.code, t.redeem).0).Rejected?
    ensures Exchanged(h, store, form, t).0.Denied? && Exchanged(h, store, form, t).1.jtis == store.jtis
  {
  }

  lemma {:induction false} AdmittedIff(store: Store, client: string, p: Result<(string, string)>, error: IdpError, t: Times)
    ensures var (reply, after) := Admitted(store, client, p, error, t);
      && (reply.Issued? <==> p.Ok? && Unclaimed(store.jtis, p.value.1, t.jti))
      && after.jtis == (if reply.Issued? then store.jtis[p.value.1 := t.jti + 120 * SECOND] else store.jtis)
  {
  }

  lemma {:induction false} IssuedIfProved(h: Hash, store: Store, form: TokenForm, t: Times)
    requires CheckForm(form).None? && CheckCode(h, form, Redeem(store.codes, form.code, t.redeem).0).Redeemed?
    ensures var (reply, after) := Exchanged(h, store, form, t);
      var p := CheckProof(h, form, t.proof);
      && (reply.Issued? <==> p.Ok? && Unclaimed(store.jtis, p.value.1, t.jti))
      && after.jtis == (if reply.Issued? then store.jtis[p.value.1 := t.jti + 120 * SECOND] else store.jtis)
  {
    var (found, codes) := Redeem(store.codes, form.code, t.redeem);
    AdmittedIff(store.(codes := codes), CheckCode(h, form, found).client, CheckProof(h, form, t.proof), ProofError(form), t);
  }

  /** The jti is not claimed by a lease that still runs. */
  predicate Unclaimed(jtis: map<string, int>, jti: string, at: int) {
    jti in jtis ==> jtis[jti] <= at
  }

  /**
   * Exactly when a call that nothing interrupts issues a token, and what it does to the store: the code is gone
   * once the form is in order, and the jti claimed once the proof is good.
   */
  lemma {:induction false} TokenIsIssuedIff(h: Hash, store: Store, form: TokenForm, t: Times)
    ensures var (reply, after) := Exchanged(h, store, form, t);
      var granted, p := Granted(h, store.codes, form, t.redeem), CheckProof(h, form, t.proof);
      && (reply.Issued? <==> granted && p.Ok? && Unclaimed(store.jtis, p.value.1, t.jti))
      && after.jtis == (if reply.Issued? then store.jtis[p.value.1 := t.jti + 120 * SECOND] else store.jtis)
  {
    GrantedIff(h, store.codes, form, t.redeem);
    if Granted(h, store.codes, form, t.redeem) {
      IssuedIfProved(h, store, form, t);
    } else {
      NotIssuedUngranted(h, store, form, t);
    }
  }

  lemma {:induction false} CodeIsSpent(h: Hash, store: Store, form: TokenForm, t: Times)
    ensures Exchanged(h, store, form, t).1.codes == if CheckForm(form).None? then store.codes - {form.code} else store.codes
  {
  }

  /** Why a form that is in order is refused, in the order of the checks. */
  lemma {:induction false} RefusedBecause(h: Hash, store: Store, form: TokenForm, t: Times)
    requires CheckForm(form).None?
    ensures var reply := Exchanged(h, store, form, t).0;
      if form.code !in store.codes || t.redeem > store.codes[form.code].expiresAt then reply == Denied(InvalidGrant)
      else if SecretOf(store.codes[form.code].client) != Some(form.clientSecret) then reply == Denied(InvalidClient)
      else if h.digest(form.codeVerifier) != store.codes[form.code].challenge then reply == Denied(InvalidGrant)
      else if form.header.NoProof? then reply == Denied(InvalidRequest)
      else reply.Issued? || reply == Denied(InvalidDpopProof)
  {
    if form.code in store.codes {
      CheckCodeIff(h, form, store.codes[form.code].challenge, store.codes[form.code].client);
    }
    var (found, codes) := Redeem(store.codes, form.code, t.redeem);
    if CheckCode(h, form, found).Redeemed? {
      AdmittedReply(store.(codes := codes), CheckCode(h, form, found).client, CheckProof(h, form, t.proof), ProofError(form), t);
    }
  }

  lemma {:induction false} AdmittedReply(store: Store, client: string, p: Result<(string, string)>, error: IdpError, t: Times)
    ensures var reply := Admitted(store, client, p, error, t).0;
      if p.Err? then reply == Denied(error) else reply.Issued? || reply == Denied(InvalidDpopProof)
  {
  }

  /** What the token says. */
  lemma {:induction false} IssuedClaims(h: Hash, store: Store, form: TokenForm, t: Times)
    requires Exchanged(h, store, form, t).0.Issued?
    ensures form.code in store.codes && CheckProof(h, form, t.proof).Ok?
    ensures var client := store.codes[form.code].client;
      Exchanged(h, store, form, t).0.claims == Claims(
        client, TenantOf(client), RoleOf(client), "transfer balance", (t.sign + 60 * SECOND) / SECOND, t.sign / SECOND,
        CheckProof(h, form, t.proof).value.0)
  {
  }

  class Provider {
    const store: RamStore
    const h: Hash

    constructor (h: Hash)
      ensures this.h == h && fresh(store) && Contents() == Store(map[], map[])
    {
      this.h := h;
      store := new RamStore();
    }

    function Contents(): Store
      reads store
    {
      Store(store.codes, store.jtis)
    }

    /** `code` is the hex text of the 16 random bytes drawn. */
    method AuthorizeHandler(q: AuthorizeQuery, code: string, now: int) returns (reply: AuthorizeReply)
      modifies store
      ensures (reply, Contents()) == Authorized(old(Contents()), q, code, now)
    {
      if q.responseType != "code" {
        return Declined(InvalidRequest);
      }
      if q.clientId == "" {
        return Declined(InvalidRequest);
      }
      var expectedSecret := SecretOf(q.clientId);
      if expectedSecret.None? {
        return Declined(InvalidClient);
      }
      if q.redirectUri == "" {
        return Declined(InvalidRequest);
      }
      if q.codeChallenge == "" {
        return Declined(InvalidRequest);
      }
      if q.codeChallengeMethod != "S256" {
        return Declined(InvalidRequest);
      }
      store.SaveAuthCode(code, q.codeChallenge, q.clientId, CODE_TTL, now);
      if !q.redirectParses {
        return Declined(InvalidRequest);
      }
      if q.wantsJson {
        if q.clientSecret == "" {
          return Declined(InvalidClient);
        }
        if q.clientSecret != expectedSecret.value {
          return Declined(InvalidClient);
        }
      }
      return Sent(code);
    }

    /** The client's secret, then the code verifier. */
    method AuthenticateClient(form: TokenForm, codeChallenge: string, clientId: string) returns (error: Option<IdpError>)
      ensures error == match CheckCode(h, form, Some((codeChallenge, clientId))) case Rejected(e) => Some(e) case Redeemed(_, _) => None
    {
      var expectedSecret := SecretOf(clientId);
      if expectedSecret.None? {
        return Some(InvalidClient);
      }
      if form.clientSecret == "" {
        return Some(InvalidClient);
      }
      if form.clientSecret != expectedSecret.value {
        return Some(InvalidClient);
      }
      if !VerifyPkce(h, form.codeVerifier, codeChallenge, "S256") {
        return Some(InvalidGrant);
      }
      return None;
    }

    /** Tenant and role by the client's id, then the claims. */
    method MakeClaims(clientId: string, jkt: string, now: int) returns (claims: Claims)
      ensures claims == ClaimsFor(clientId, jkt, now)
    {
      var tenantId := "88888888-8888-8888-8888-888888888888";
      var role := "guest";
      if clientId == "client-alice" {
        tenantId := "11111111-1111-1111-1111-111111111111";
        role := "operator";
      } else if clientId == "client-bob" {
        tenantId := "22222222-2222-2222-2222-222222222222";
        role := "viewer";
      } else if clientId == "client-evil" {
        tenantId := "66666666-6666-6666-6666-666666666666";
        role := "attacker";
      }
      claims := Claims(clientId, tenantId, role, "transfer balance", (now + TOKEN_TTL) / SECOND, now / SECOND, jkt);
    }

    method TokenHandler(form: TokenForm, t: Times) returns (reply: TokenReply)
      modifies store
      ensures (reply, Contents()) == Exchanged(h, old(Contents()), form, t)
    {
      if !form.isPost {
        return Denied(MethodNotAllowed);
      }
      if !form.parses {
        return Denied(InvalidRequest);
      }
      if form.grantType != "authorization_code" {
        return Denied(UnsupportedGrantType);
      }
      if form.code == "" {
        return Denied(InvalidRequest);
      }
      if form.codeVerifier == "" {
        return Denied(InvalidRequest);
      }
      var found := store.GetAndRemoveAuthCode(form.code, t.redeem);
      if found.None? {
        return Denied(InvalidGrant);
      }
      var (codeChallenge, clientId) := found.value;
      var refused := AuthenticateClient(form, codeChallenge, clientId);
      if refused.Some? {
        return Denied(refused.value);
      }
      if form.header.NoProof? {
        return Denied(InvalidRequest);
      }
      var p := CheckProof(h, form, t.proof);
      if p.Err? {
        return Denied(InvalidDpopProof);
      }
      var (jkt, jti) := p.value;
      var used := store.IsJtiUsedAndSave(jti, ReplayCache.JTI_TTL, t.jti);
      if used {
        return Denied(InvalidDpopProof);
      }
      var claims := MakeClaims(clientId, jkt, t.sign);
      return Issued(claims);
    }
  }
}
