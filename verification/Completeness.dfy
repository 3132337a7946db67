/**
 * The other direction: a client that does everything right is served, as often as it signs a new proof;
 * and two runs that show what is not unique: one token serves twice, and one code earns two tokens.
 */
module Completeness {
  import opened Common
  import opened Jwk
  import opened DpopProof
  import opened TtlStore
  import opened Idp
  import opened ReplayCache
  import opened Protocol
  import opened Agreement
  import CodeStore
  import Database
  import Gateway

  /** The cache would let a call for this jti through. */
  predicate Free(c: Cache, jti: string, now: int) {
    !(jti in c.entries && now < c.entries[jti])
  }

  /** No jti but this one is claimed. */
  ghost predicate ClaimsOnly(c: Cache, c': Cache, jti: string, now: int) {
    forall k :: k != jti && Free(c, k, now) ==> Free(c', k, now)
  }

  lemma {:induction false} RunSnoc(c: Checks, s: State, actions: seq<Action>, a: Action)
    ensures Run(c, s, actions + [a]) == Next(c, Run(c, s, actions), a)
  {
    assert (actions + [a])[..|actions|] == actions;
  }

  lemma {:induction false} RunOne(c: Checks, s: State, a: Action)
    ensures Run(c, s, [a]) == Next(c, s, a)
  {
    RunSnoc(c, s, [], a);
    assert [] + [a] == [a];
  }

  lemma {:induction false} RunTwo(c: Checks, s: State, a: Action, b: Action)
    ensures Run(c, s, [a, b]) == Next(c, Next(c, s, a), b)
  {
    RunOne(c, s, a);
    RunSnoc(c, s, [a], b);
    assert [a] + [b] == [a, b];
  }

  lemma {:induction false} RunConcat(c: Checks, s: State, a: seq<Action>, b: seq<Action>)
    ensures Run(c, s, a + b) == Run(c, Run(c, s, a), b)
  {
    if b == [] {
      assert a + b == a;
    } else {
      RunConcat(c, s, a, b[..|b| - 1]);
      assert (a + b)[..|a + b| - 1] == a + b[..|b| - 1];
    }
  }

  // ----- earning a token, one step after the other

  lemma {:induction false} AskPasses(c: Checks, s: State, q: AuthorizeQuery, code: string)
    requires c.authorize(q).None? && code !in s.grants
    ensures var s' := Next(c, s, Authorize(q, code));
      && s' == s.(codes := s'.codes, grants := s'.grants)
      && code in s'.codes.entries && s'.codes.entries[code] == CodeInfo(q.codeChallenge, q.clientId, s.now + CODE_TTL)
  {
  }

  /** The call has loaded this entry of the code store, and nothing else has happened. */
  ghost predicate HasLoaded(s: State, s': State, i: nat, info: CodeInfo)
    requires i < |s.tokenCalls|
  {
    && s' == s.(codes := s'.codes, tokenCalls := s.tokenCalls[i := s.tokenCalls[i].(redemption := |s.codes.log|, pc := Found(info))])
    && s'.codes.entries == s.codes.entries && s'.codes.log == s.codes.log + [CodeStore.Loaded(s.tokenCalls[i].form.code, s.now)]
  }

  lemma {:induction false} FindPasses(c: Checks, s: State, i: nat, text: string)
    requires i < |s.tokenCalls| && s.tokenCalls[i].pc.Arrived? && c.form(s.tokenCalls[i].form).None?
    requires s.tokenCalls[i].form.code in s.codes.entries
    ensures HasLoaded(s, Next(c, s, TokenStep(i, text, s.now)), i, s.codes.entries[s.tokenCalls[i].form.code])
  {
  }

  lemma {:induction false} TakePasses(c: Checks, s: State, i: nat, text: string)
    requires i < |s.tokenCalls| && s.tokenCalls[i].pc.Found? && CodeStore.IsLoad(s.codes.log, s.tokenCalls[i].redemption)
    ensures var s', call := Next(c, s, TokenStep(i, text, s.now)), s.tokenCalls[i];
      && s' == s.(codes := s'.codes, tokenCalls := s.tokenCalls[i := call.(pc := Taken(call.pc.info))])
      && s.codes.log <= s'.codes.log
  {
  }

  lemma {:induction false} CheckPasses(c: Checks, s: State, i: nat, text: string)
    requires i < |s.tokenCalls| && s.tokenCalls[i].pc.Taken?
    requires var call, info := s.tokenCalls[i], s.tokenCalls[i].pc.info;
      s.now <= info.expiresAt && c.code(call.form, info.challenge, info.client).None?
    ensures var call := s.tokenCalls[i];
      Next(c, s, TokenStep(i, text, s.now)) == s.(tokenCalls := s.tokenCalls[i := call.(client := call.pc.info.client, pc := Holding(s.now))])
  {
  }

  lemma {:induction false} ProofPasses(c: Checks, s: State, i: nat, text: string, jkt: string, jti: string)
    requires i < |s.tokenCalls| && s.tokenCalls[i].pc.Holding? && c.idpProof(s.tokenCalls[i].form, s.now) == Ok((jkt, jti))
    ensures Next(c, s, TokenStep(i, text, s.now))
         == s.(tokenCalls := s.tokenCalls[i := s.tokenCalls[i].(pc := Proved(s.tokenCalls[i].pc.redeemedAt, KeyProof(jkt, jti, s.now)))])
  {
  }

  lemma {:induction false} LoadPasses(c: Checks, s: State, i: nat, text: string)
    requires i < |s.tokenCalls| && s.tokenCalls[i].pc.Proved? && s.tokenCalls[i].pc.key.at <= s.now
    requires Free(s.idp, s.tokenCalls[i].pc.key.jti, s.now)
    ensures var s', call := Next(c, s, TokenStep(i, text, s.now)), s.tokenCalls[i];
      && s' == s.(idp := s'.idp, tokenCalls := s.tokenCalls[i := call.(pc :=
                if call.pc.key.jti in s.idp.entries then Storing(call.pc.redeemedAt, call.pc.key, |s.idp.log|)
                else Admitted(call.pc.redeemedAt, call.pc.key))])
      && IsLoad(s'.idp.log, |s.idp.log|) && s'.idp.log[|s.idp.log|].jti == call.pc.key.jti
      && ClaimsOnly(s.idp, s'.idp, call.pc.key.jti, s.now)
  {
  }

  lemma {:induction false} StorePasses(c: Checks, s: State, i: nat, text: string)
    requires i < |s.tokenCalls| && s.tokenCalls[i].pc.Storing? && IsLoad(s.idp.log, s.tokenCalls[i].pc.load)
    ensures var s', call := Next(c, s, TokenStep(i, text, s.now)), s.tokenCalls[i];
      && s' == s.(idp := s'.idp, tokenCalls := s.tokenCalls[i := call.(pc := Admitted(call.pc.redeemedAt, call.pc.key))])
      && ClaimsOnly(s.idp, s'.idp, s.idp.log[call.pc.load].jti, s.now)
  {
  }

  /** One step, or two if an expired entry has to be stored over. */
  lemma {:induction false} AdmitPasses(c: Checks, s: State, i: nat, text: string) returns (actions: seq<Action>)
    requires i < |s.tokenCalls| && s.tokenCalls[i].pc.Proved? && s.tokenCalls[i].pc.key.at <= s.now
    requires Free(s.idp, s.tokenCalls[i].pc.key.jti, s.now)
    ensures var s', pc := Run(c, s, actions), s.tokenCalls[i].pc;
      && s' == s.(idp := s'.idp, tokenCalls := s.tokenCalls[i := s.tokenCalls[i].(pc := Admitted(pc.redeemedAt, pc.key))])
      && ClaimsOnly(s.idp, s'.idp, pc.key.jti, s.now)
  {
    var a := TokenStep(i, text, s.now);
    LoadPasses(c, s, i, text);
    if s.tokenCalls[i].pc.key.jti in s.idp.entries {
      StorePasses(c, Next(c, s, a), i, text);
      RunTwo(c, s, a, a);
      actions := [a, a];
    } else {
      RunOne(c, s, a);
      actions := [a];
    }
  }

  lemma {:induction false} IssuePasses(c: Checks, s: State, i: nat, text: string)
    requires i < |s.tokenCalls| && s.tokenCalls[i].pc.Admitted? && text !in s.issues
    ensures var s', call := Next(c, s, TokenStep(i, text, s.now)), s.tokenCalls[i];
      s' == s.(tokenCalls := s.tokenCalls[i := call.(pc := Ended(text))], issues := s.issues[text :=
              Issue(c.claims(call.client, call.pc.key.jkt, s.now), s.now, i, call.pc.redeemedAt, call.pc.key)])
  {
  }

  /** Call `i` has earned this token, and claimed its jti and nothing else. */
  ghost predicate EarnedLast(c: Checks, s: State, s': State, i: nat, client: string, text: string, jkt: string, jti: string)
    requires i < |s.tokenCalls|
  {
    && s' == s.(codes := s'.codes, idp := s'.idp, issues := s'.issues,
                tokenCalls := s.tokenCalls[i := s.tokenCalls[i].(client := client, pc := Ended(text))])
    && s'.issues == s.issues[text := Issue(c.claims(client, jkt, s.now), s.now, i, s.now, KeyProof(jkt, jti, s.now))]
    && s.codes.log <= s'.codes.log && ClaimsOnly(s.idp, s'.idp, jti, s.now)
  }

  lemma {:induction false} RedeemPasses(c: Checks, s: State, i: nat, text: string) returns (s': State)
    requires i < |s.tokenCalls| && s.tokenCalls[i].pc.Found? && CodeStore.IsLoad(s.codes.log, s.tokenCalls[i].redemption)
    requires var call, info := s.tokenCalls[i], s.tokenCalls[i].pc.info;
      s.now <= info.expiresAt && c.code(call.form, info.challenge, info.client).None?
    ensures s' == Run(c, s, [TokenStep(i, text, s.now), TokenStep(i, text, s.now)]) && s.codes.log <= s'.codes.log
    ensures var call := s.tokenCalls[i];
      s' == s.(codes := s'.codes, tokenCalls := s.tokenCalls[i := call.(client := call.pc.info.client, pc := Holding(s.now))])
  {
    var a := TokenStep(i, text, s.now);
    TakePasses(c, s, i, text);
    CheckPasses(c, Next(c, s, a), i, text);
    RunTwo(c, s, a, a);
    s' := Run(c, s, [a, a]);
  }

  /** Once the code is loaded, whatever becomes of it in the store. */
  lemma {:induction false} FoundIsEarned(c: Checks, s: State, i: nat, text: string, jkt: string, jti: string) returns (actions: seq<Action>)
    requires i < |s.tokenCalls| && s.tokenCalls[i].pc.Found? && CodeStore.IsLoad(s.codes.log, s.tokenCalls[i].redemption)
    requires var call, info := s.tokenCalls[i], s.tokenCalls[i].pc.info;
      s.now <= info.expiresAt && c.code(call.form, info.challenge, info.client).None? && c.idpProof(call.form, s.now) == Ok((jkt, jti))
    requires text !in s.issues && Free(s.idp, jti, s.now)
    ensures EarnedLast(c, s, Run(c, s, actions), i, s.tokenCalls[i].pc.info.client, text, jkt, jti)
  {
    var a := TokenStep(i, text, s.now);
    var s1 := RedeemPasses(c, s, i, text);
    ProofPasses(c, s1, i, text, jkt, jti);
    RunSnoc(c, s, [a, a], a);
    var s2 := Next(c, s1, a);
    var more := AdmitPasses(c, s2, i, text);
    RunConcat(c, s, [a, a] + [a], more);
    IssuePasses(c, Run(c, s2, more), i, text);
    RunSnoc(c, s, [a, a] + [a] + more, a);
    actions := [a, a] + [a] + more + [a];
  }

  lemma {:induction false} TokenIsEarned(c: Checks, s: State, i: nat, text: string, jkt: string, jti: string) returns (actions: seq<Action>)
    requires i < |s.tokenCalls| && s.tokenCalls[i].pc.Arrived? && c.form(s.tokenCalls[i].form).None?
    requires var form, m := s.tokenCalls[i].form, s.codes.entries;
      form.code in m && s.now <= m[form.code].expiresAt
      && c.code(form, m[form.code].challenge, m[form.code].client).None? && c.idpProof(form, s.now) == Ok((jkt, jti))
    requires text !in s.issues && Free(s.idp, jti, s.now)
    ensures var s' := Run(c, s, actions);
      && s'.now == s.now && s'.apiCalls == s.apiCalls && s'.gateway == s.gateway && text in s'.issues
      && s'.issues[text].claims == c.claims(s.codes.entries[s.tokenCalls[i].form.code].client, jkt, s.now)
  {
    var a := TokenStep(i, text, s.now);
    FindPasses(c, s, i, text);
    RunOne(c, s, a);
    var more := FoundIsEarned(c, Next(c, s, a), i, text, jkt, jti);
    RunConcat(c, s, [a], more);
    actions := [a] + more;
  }

  // ----- using it

  lemma {:induction false} ShowPasses(c: Checks, s: State, j: nat, reply: Option<Gateway.PolicyReply>, jkt: string, jti: string, token: string)
    requires j < |s.apiCalls| && s.apiCalls[j].pc.Received? && c.apiProof(s.apiCalls[j].req, s.now) == Gateway.Passed((jkt, jti, token))
    ensures Next(c, s, ApiStep(j, true, reply, s.now)) == s.(apiCalls := s.apiCalls[j := s.apiCalls[j].(pc := Shown(jkt, jti, token, s.now))])
  {
  }

  lemma {:induction false} ReplayPasses(c: Checks, s: State, j: nat, reply: Option<Gateway.PolicyReply>)
    requires j < |s.apiCalls| && s.apiCalls[j].pc.Shown? && s.apiCalls[j].pc.at <= s.now && Free(s.gateway, s.apiCalls[j].pc.jti, s.now)
    ensures var s', call := Next(c, s, ApiStep(j, true, reply, s.now)), s.apiCalls[j];
      && s' == s.(gateway := s'.gateway, apiCalls := s.apiCalls[j := ApiCall(call.req,
                 if call.pc.jti in s.gateway.entries then Writing else Unreplayed,
                 Some(Evidence(call.pc.jkt, call.pc.jti, call.pc.token, call.pc.at, |s.gateway.log|)))])
      && IsLoad(s'.gateway.log, |s.gateway.log|) && s'.gateway.log[|s.gateway.log|].jti == call.pc.jti
      && ClaimsOnly(s.gateway, s'.gateway, call.pc.jti, s.now)
  {
  }

  lemma {:induction false} WritePasses(c: Checks, s: State, j: nat, reply: Option<Gateway.PolicyReply>)
    requires j < |s.apiCalls| && s.apiCalls[j].pc.Writing? && s.apiCalls[j].evidence.Some?
    requires IsLoad(s.gateway.log, s.apiCalls[j].evidence.value.load)
    ensures var s', call := Next(c, s, ApiStep(j, true, reply, s.now)), s.apiCalls[j];
      && s' == s.(gateway := s'.gateway, apiCalls := s.apiCalls[j := call.(pc := Unreplayed)])
      && ClaimsOnly(s.gateway, s'.gateway, s.gateway.log[call.evidence.value.load].jti, s.now)
  {
  }

  lemma {:induction false} SavePasses(c: Checks, s: State, j: nat, reply: Option<Gateway.PolicyReply>) returns (actions: seq<Action>)
    requires j < |s.apiCalls| && s.apiCalls[j].pc.Shown? && s.apiCalls[j].pc.at <= s.now && Free(s.gateway, s.apiCalls[j].pc.jti, s.now)
    ensures var s', call := Run(c, s, actions), s.apiCalls[j];
      && s' == s.(gateway := s'.gateway, apiCalls := s.apiCalls[j := ApiCall(call.req, Unreplayed,
                 Some(Evidence(call.pc.jkt, call.pc.jti, call.pc.token, call.pc.at, |s.gateway.log|)))])
      && ClaimsOnly(s.gateway, s'.gateway, call.pc.jti, s.now)
  {
    var a := ApiStep(j, true, reply, s.now);
    ReplayPasses(c, s, j, reply);
    if s.apiCalls[j].pc.jti in s.gateway.entries {
      WritePasses(c, Next(c, s, a), j, reply);
      RunTwo(c, s, a, a);
      actions := [a, a];
    } else {
      RunOne(c, s, a);
      actions := [a];
    }
  }

  lemma {:induction false} VerifyPasses(c: Checks, s: State, j: nat, reply: Option<Gateway.PolicyReply>)
    requires j < |s.apiCalls| && s.apiCalls[j].pc.Unreplayed? && s.apiCalls[j].evidence.Some? && s.apiCalls[j].evidence.value.token in s.issues
    requires var claims := s.issues[s.apiCalls[j].evidence.value.token].claims;
      c.token(claims, s.apiCalls[j].evidence.value.jkt, s.now).None? && c.identity(s.apiCalls[j].req, claims).None?
    ensures Next(c, s, ApiStep(j, true, reply, s.now))
         == s.(apiCalls := s.apiCalls[j := s.apiCalls[j].(pc := Authenticated(s.issues[s.apiCalls[j].evidence.value.token].claims, s.now))])
  {
  }

  lemma {:induction false} ServePasses(c: Checks, s: State, j: nat, reply: Option<Gateway.PolicyReply>, request: Database.Request)
    requires j < |s.apiCalls| && s.apiCalls[j].pc.Authenticated? && c.policy(reply).None?
    requires c.handler(s.apiCalls[j].req, s.apiCalls[j].pc.claims) == Gateway.Passed(request)
    ensures Next(c, s, ApiStep(j, true, reply, s.now))
         == s.(apiCalls := s.apiCalls[j := s.apiCalls[j].(pc := Serving(s.apiCalls[j].pc.claims, s.apiCalls[j].pc.at, reply, request))])
  {
  }

  /** A request has been served as the last one, with this token, and has claimed its jti and nothing else. */
  ghost predicate ServedLast(s: State, s': State, token: string, jti: string, reply: Option<Gateway.PolicyReply>, request: Database.Request) {
    && s' == s.(gateway := s'.gateway, apiCalls := s'.apiCalls)
    && |s'.apiCalls| == |s.apiCalls| + 1 && s.apiCalls <= s'.apiCalls
    && ClaimsOnly(s.gateway, s'.gateway, jti, s.now)
    && var call := s'.apiCalls[|s.apiCalls|];
       && token in s.issues && call.pc == Serving(s.issues[token].claims, s.now, reply, request)
       && call.evidence.Some? && call.evidence.value.token == token
  }

  lemma {:induction false} RequestIsLetThrough(
      c: Checks, s: State, req: Gateway.ApiRequest, reply: Option<Gateway.PolicyReply>, jkt: string, jti: string, token: string)
    returns (actions: seq<Action>)
    requires c.apiProof(req, s.now) == Gateway.Passed((jkt, jti, token)) && Free(s.gateway, jti, s.now)
    ensures var s' := Run(c, s, actions);
      && s' == s.(gateway := s'.gateway, apiCalls := s.apiCalls +
                 [ApiCall(req, Unreplayed, Some(Evidence(jkt, jti, token, s.now, |s.gateway.log|)))])
      && ClaimsOnly(s.gateway, s'.gateway, jti, s.now)
  {
    var j, a := |s.apiCalls|, ApiStep(|s.apiCalls|, true, reply, s.now);
    var s0 := Next(c, s, ApiArrives(req));
    ShowPasses(c, s0, j, reply, jkt, jti, token);
    RunTwo(c, s, ApiArrives(req), a);
    var more := SavePasses(c, Next(c, s0, a), j, reply);
    RunConcat(c, s, [ApiArrives(req), a], more);
    actions := [ApiArrives(req), a] + more;
  }

  lemma {:induction false} LetThroughIsServed(
      c: Checks, s: State, j: nat, reply: Option<Gateway.PolicyReply>, token: string, request: Database.Request)
    requires j < |s.apiCalls| && s.apiCalls[j].pc.Unreplayed? && s.apiCalls[j].evidence.Some? && s.apiCalls[j].evidence.value.token == token
    requires token in s.issues && c.token(s.issues[token].claims, s.apiCalls[j].evidence.value.jkt, s.now).None?
    requires c.identity(s.apiCalls[j].req, s.issues[token].claims).None? && c.policy(reply).None?
    requires c.handler(s.apiCalls[j].req, s.issues[token].claims) == Gateway.Passed(request)
    ensures var a, call := ApiStep(j, true, reply, s.now), s.apiCalls[j];
      Run(c, s, [a, a]) == s.(apiCalls := s.apiCalls[j := call.(pc := Serving(s.issues[token].claims, s.now, reply, request))])
  {
    var a := ApiStep(j, true, reply, s.now);
    VerifyPasses(c, s, j, reply);
    ServePasses(c, Next(c, s, a), j, reply, request);
    RunTwo(c, s, a, a);
  }

  lemma {:induction false} RequestIsServed(
      c: Checks, s: State, req: Gateway.ApiRequest, reply: Option<Gateway.PolicyReply>, jkt: string, jti: string, token: string,
      request: Database.Request)
    returns (actions: seq<Action>)
    requires token in s.issues && Free(s.gateway, jti, s.now)
    requires var claims := s.issues[token].claims;
      c.apiProof(req, s.now) == Gateway.Passed((jkt, jti, token)) && c.token(claims, jkt, s.now).None?
      && c.identity(req, claims).None? && c.policy(reply).None? && c.handler(req, claims) == Gateway.Passed(request)
    ensures ServedLast(s, Run(c, s, actions), token, jti, reply, request)
  {
    var j, a := |s.apiCalls|, ApiStep(|s.apiCalls|, true, reply, s.now);
    var first := RequestIsLetThrough(c, s, req, reply, jkt, jti, token);
    LetThroughIsServed(c, Run(c, s, first), j, reply, token, request);
    RunConcat(c, s, first, [a, a]);
    actions := first + [a, a];
  }

  // ----- with the checks of the code

  lemma FreshProofInWindow(signedAt: int, now: int)
    requires signedAt <= now <= signedAt + 59 * SECOND
    ensures InWindow(signedAt / SECOND, now)
  {
    WindowAroundSigning(signedAt, now);
  }

  /** An authorization request with everything in it. */
  predicate GoodQuery(h: Hash, q: AuthorizeQuery, verifier: string) {
    && q.responseType == "code" && Registered(q.clientId) && q.redirectUri != ""
    && q.codeChallenge == h.digest(verifier) && q.codeChallenge != "" && q.codeChallengeMethod == "S256"
  }

  /** A token request by the client that holds the verifier, with a proof signed just now. */
  predicate GoodForm(h: Hash, form: TokenForm, q: AuthorizeQuery, verifier: string, key: PublicKey, jti: string, now: int)
    requires OnField(key)
  {
    && form.isPost && form.parses && form.grantType == "authorization_code" && form.code != ""
    && form.codeVerifier == verifier && verifier != "" && SecretOf(q.clientId) == Some(form.clientSecret)
    && form.header == Signed(Generated(h, key, "POST", form.uri, "", now, jti))
  }

  lemma {:induction false} GoodFormPasses(h: Hash, form: TokenForm, q: AuthorizeQuery, verifier: string, key: PublicKey, jti: string, now: int)
    requires OnField(key) && GoodQuery(h, q, verifier) && GoodForm(h, form, q, verifier, key, jti, now)
    ensures CheckAuthorize(q).None? && CheckForm(form).None? && RefusedCode(h, form, q.codeChallenge, q.clientId).None?
    ensures Idp.CheckProof(h, form, now) == Ok((ClientThumbprint(h, key), jti))
  {
    RegisteredHaveSecrets(q.clientId);
    SecretsAreNotEmpty(q.clientId);
    FreshProofInWindow(now, now);
    HasBase(form.uri);
    GeneratedProofPassesIdp(h, key, "POST", form.uri, form.uri, now, jti, now, BeforeQuery(form.uri), BeforeQuery(form.uri));
  }

  lemma SecretsAreNotEmpty(client: string)
    ensures SecretOf(client) != Some("")
  {
  }

  /** From any state: a registered client that keeps to the protocol is issued a token bound to its key. */
  lemma {:induction false} HonestClientEarnsToken(
      h: Hash, enforceZiti: bool, failOpen: bool, s: State, q: AuthorizeQuery, verifier: string, form: TokenForm,
      key: PublicKey, jti: string, text: string)
    returns (actions: seq<Action>)
    requires OnField(key) && GoodQuery(h, q, verifier) && GoodForm(h, form, q, verifier, key, jti, s.now)
    requires form.code !in s.grants && text !in s.issues && Free(s.idp, jti, s.now)
    ensures var s' := Run(RealChecks(h, enforceZiti, failOpen), s, actions);
      && text in s'.issues && s'.issues[text].claims == ClaimsFor(q.clientId, ClientThumbprint(h, key), s.now)
      && s'.now == s.now && s'.apiCalls == s.apiCalls && s'.gateway == s.gateway
  {
    var c := RealChecks(h, enforceZiti, failOpen);
    GoodFormPasses(h, form, q, verifier, key, jti, s.now);
    AskPasses(c, s, q, form.code);
    var asked := [Authorize(q, form.code), TokenArrives(form)];
    RunTwo(c, s, Authorize(q, form.code), TokenArrives(form));
    var more := TokenIsEarned(c, Run(c, s, asked), |s.tokenCalls|, text, ClientThumbprint(h, key), jti);
    RunConcat(c, s, asked, more);
    actions := asked + more;
  }

  lemma {:induction false} SchemeIsCut(token: string)
    ensures Gateway.AccessToken("DPoP " + token) == Some(token)
  {
    var a := "DPoP " + token;
    assert a[..4] == "DPoP" && a[4..5] == " " && a[5..] == token;
    IndexOfFirst(a, " ", 4);
  }

  /** A request with a token and a proof of its own, signed within the last 59 s. */
  predicate GoodRequest(h: Hash, req: Gateway.ApiRequest, uri: string, token: string, key: PublicKey, jti: string, signedAt: int, now: int)
    requires OnField(key)
  {
    && req.authorization == "DPoP " + token && jti != "" && (token == "" || h.digest(token) != "")
    && VerifyHtu(uri, (if req.tls then "https" else "http") + "://" + req.host + req.path) && signedAt <= now <= signedAt + 59 * SECOND
    && req.header == Signed(Generated(h, key, req.method_, uri, token, signedAt, jti))
  }

  lemma {:induction false} GoodRequestPasses(
      h: Hash, req: Gateway.ApiRequest, uri: string, token: string, key: PublicKey, jti: string, signedAt: int, now: int)
    requires OnField(key) && GoodRequest(h, req, uri, token, key, jti, signedAt, now)
    ensures Gateway.CheckProof(h, req, now) == Gateway.Passed((ClientThumbprint(h, key), jti, token))
  {
    SchemeIsCut(token);
    FreshProofInWindow(signedAt, now);
    GeneratedProofPassesGateway(h, key, req.method_, uri, Gateway.FullUri(req), token, signedAt, jti, now);
  }

  /** For every path a proof for its URI is good under any scheme and host. */
  lemma {:induction false} OwnPathIsGood(
      h: Hash, req: Gateway.ApiRequest, scheme: string, host: string, token: string, key: PublicKey, jti: string, signedAt: int, now: int)
    requires OnField(key) && ':' !in scheme && '/' !in host && '/' !in req.host && (req.path == "" || req.path[0] == '/')
    requires req.authorization == "DPoP " + token && jti != "" && (token == "" || h.digest(token) != "")
    requires signedAt <= now <= signedAt + 59 * SECOND
    requires req.header == Signed(Generated(h, key, req.method_, scheme + "://" + host + req.path, token, signedAt, jti))
    ensures Gateway.CheckProof(h, req, now) == Gateway.Passed((ClientThumbprint(h, key), jti, token))
  {
    StripLeavesPath(scheme, host, req.path);
    StripLeavesPath(if req.tls then "https" else "http", req.host, req.path);
    GoodRequestPasses(h, req, scheme + "://" + host + req.path, token, key, jti, signedAt, now);
  }

  /** What stands between a good request and being served: network identity, policy, and what the request asks for. */
  predicate Unopposed(
      enforceZiti: bool, failOpen: bool, req: Gateway.ApiRequest, claims: Claims, reply: Option<Gateway.PolicyReply>, request: Database.Request) {
    && ((req.identity == claims.sub && req.identity != "") || (req.identity == "" && !enforceZiti))
    && (if reply.Some? then reply.value.allow else failOpen)
    && ((&& req.path == "/api/transfer" && req.body.Some? && req.body.value.0 > 0.0
         && request == Database.Transfer(claims.tenantId, req.body.value.0, req.body.value.1, claims.sub))
        || (req.path == "/api/balance" && request == Database.Balance(claims.tenantId, claims.sub))
        || (req.path == "/api/audit-logs" && request == Database.Logs(claims.tenantId)))
  }

  /** And for 59 s it is served with it, if network identity, policy and handler have nothing against it. */
  lemma {:induction false} HonestClientIsServed(
      h: Hash, enforceZiti: bool, failOpen: bool, s: State, client: string, key: PublicKey, token: string, issuedAt: int,
      req: Gateway.ApiRequest, uri: string, jti: string, signedAt: int, reply: Option<Gateway.PolicyReply>, request: Database.Request)
    returns (actions: seq<Action>)
    requires OnField(key) && token in s.issues && s.issues[token].claims == ClaimsFor(client, ClientThumbprint(h, key), issuedAt)
    requires s.now <= issuedAt + 59 * SECOND && GoodRequest(h, req, uri, token, key, jti, signedAt, s.now)
    requires Free(s.gateway, jti, s.now) && Unopposed(enforceZiti, failOpen, req, s.issues[token].claims, reply, request)
    ensures ServedLast(s, Run(RealChecks(h, enforceZiti, failOpen), s, actions), token, jti, reply, request)
  {
    Gateway.HandledIff(req, s.issues[token].claims, request);
    GoodRequestPasses(h, req, uri, token, key, jti, signedAt, s.now);
    TokenLifetime(client, ClientThumbprint(h, key), issuedAt, s.now);
    actions := RequestIsServed(RealChecks(h, enforceZiti, failOpen), s, req, reply, ClientThumbprint(h, key), jti, token, request);
  }

  /** The last two requests, from `j` on, have both been served with this token. */
  predicate TwoServed(s: State, j: nat, token: string) {
    && |s.apiCalls| == j + 2 && s.apiCalls[j].pc.Serving? && s.apiCalls[j + 1].pc.Serving?
    && s.apiCalls[j].evidence.Some? && s.apiCalls[j].evidence.value.token == token
    && s.apiCalls[j + 1].evidence.Some? && s.apiCalls[j + 1].evidence.value.token == token
  }

  /** One token serves many requests, each with a proof of its own: two of them, from any state in which it is live. */
  lemma {:induction false} TokenServesTwice(
      h: Hash, enforceZiti: bool, failOpen: bool, s: State, client: string, key: PublicKey, token: string, issuedAt: int,
      req: Gateway.ApiRequest, req': Gateway.ApiRequest, uri: string, jti: string, jti': string, signedAt: int,
      reply: Option<Gateway.PolicyReply>, request: Database.Request, request': Database.Request)
    returns (actions: seq<Action>)
    requires OnField(key) && token in s.issues && s.issues[token].claims == ClaimsFor(client, ClientThumbprint(h, key), issuedAt)
    requires s.now <= issuedAt + TOKEN_TTL - SECOND && jti != jti' && Free(s.gateway, jti, s.now) && Free(s.gateway, jti', s.now)
    requires GoodRequest(h, req, uri, token, key, jti, signedAt, s.now) && GoodRequest(h, req', uri, token, key, jti', signedAt, s.now)
    requires Unopposed(enforceZiti, failOpen, req, ClaimsFor(client, ClientThumbprint(h, key), issuedAt), reply, request)
    requires Unopposed(enforceZiti, failOpen, req', ClaimsFor(client, ClientThumbprint(h, key), issuedAt), reply, request')
    ensures TwoServed(Run(RealChecks(h, enforceZiti, failOpen), s, actions), |s.apiCalls|, token)
  {
    var c := RealChecks(h, enforceZiti, failOpen);
    var first := HonestClientIsServed(h, enforceZiti, failOpen, s, client, key, token, issuedAt, req, uri, jti, signedAt, reply, request);
    var s1 := Run(c, s, first);
    var second := HonestClientIsServed(h, enforceZiti, failOpen, s1, client, key, token, issuedAt, req', uri, jti', signedAt, reply, request');
    RunConcat(c, s, first, second);
    actions := first + second;
  }

  /** There are two requests, both served, and both go back to one authorization. */
  predicate ServedFromOneGrant(s: State) {
    && |s.apiCalls| == 2 && s.apiCalls[0].pc.Serving? && s.apiCalls[1].pc.Serving?
    && HasOrigin(s, s.apiCalls[0]) && HasOrigin(s, s.apiCalls[1])
    && FormOf(s, s.apiCalls[0]).code == FormOf(s, s.apiCalls[1]).code
  }

  lemma {:induction false} SharedToken(c: Checks, start: int, actions: seq<Action>, token: string)
    requires TwoServed(Run(c, Start(start), actions), 0, token)
    ensures ServedFromOneGrant(Run(c, Start(start), actions))
  {
    SameGrantIffSameToken(c, start, actions, 0, 1);
  }

  /** From the start: a client earns one token and is served twice with it, so served requests do not have authorizations of their own. */
  lemma {:induction false} TwoServedOneGrant(
      h: Hash, enforceZiti: bool, failOpen: bool, start: int, q: AuthorizeQuery, verifier: string, form: TokenForm, key: PublicKey,
      jti0: string, text: string, req: Gateway.ApiRequest, req': Gateway.ApiRequest, uri: string, jti: string, jti': string,
      reply: Option<Gateway.PolicyReply>, request: Database.Request, request': Database.Request)
    returns (actions: seq<Action>)
    requires OnField(key) && GoodQuery(h, q, verifier) && GoodForm(h, form, q, verifier, key, jti0, start) && jti != jti'
    requires GoodRequest(h, req, uri, text, key, jti, start, start) && GoodRequest(h, req', uri, text, key, jti', start, start)
    requires Unopposed(enforceZiti, failOpen, req, ClaimsFor(q.clientId, ClientThumbprint(h, key), start), reply, request)
    requires Unopposed(enforceZiti, failOpen, req', ClaimsFor(q.clientId, ClientThumbprint(h, key), start), reply, request')
    ensures ServedFromOneGrant(Run(RealChecks(h, enforceZiti, failOpen), Start(start), actions))
  {
    var c := RealChecks(h, enforceZiti, failOpen);
    var earn := HonestClientEarnsToken(h, enforceZiti, failOpen, Start(start), q, verifier, form, key, jti0, text);
    var s := Run(c, Start(start), earn);
    assert s.now == start && s.gateway.entries == map[] && s.apiCalls == [];
    var serve := TokenServesTwice(h, enforceZiti, failOpen, s, q.clientId, key, text, start,
                                  req, req', uri, jti, jti', start, reply, request, request');
    RunConcat(c, Start(start), earn, serve);
    actions := earn + serve;
    SharedToken(c, start, actions, text);
  }

  function BobsQuery(h: Hash): AuthorizeQuery {
    AuthorizeQuery("code", "client-bob", "http://bob/back", h.digest("verifier"), "S256", "", true, false)
  }

  function BobsForm(h: Hash, now: int, jti: string): TokenForm {
    TokenForm(true, true, "authorization_code", "code", "verifier", "bob-secure-secret-2026",
              Signed(Generated(h, PublicKey(1, 1), "POST", "http://idp/token", "", now, jti)), "http://idp/token")
  }

  const BALANCE_URI := "http" + "://" + "bank" + "/api/balance"

  function BalanceRequest(h: Hash, key: PublicKey, token: string, jti: string, now: int): Gateway.ApiRequest
    requires OnField(key)
  {
    var sp := Generated(h, key, "GET", BALANCE_URI, token, now, jti);
    Gateway.ApiRequest("DPoP " + token, Signed(sp), "GET", false, "bank", "/api/balance", "", "", None)
  }

  lemma {:induction false} BalanceRequestIsGood(h: Hash, key: PublicKey, token: string, jti: string, now: int)
    requires OnField(key) && jti != "" && h.digest(token) != ""
    ensures GoodRequest(h, BalanceRequest(h, key, token, jti, now), BALANCE_URI, token, key, jti, now, now)
  {
    assert Gateway.FullUri(BalanceRequest(h, key, token, jti, now)) == BALANCE_URI;
    HtuIsEquivalence(BALANCE_URI, BALANCE_URI, BALANCE_URI);
  }

  lemma {:induction false} BalanceRequestUnopposed(h: Hash, key: PublicKey, token: string, jti: string, now: int, claims: Claims)
    requires OnField(key)
    ensures Unopposed(false, false, BalanceRequest(h, key, token, jti, now), claims, Some(Gateway.PolicyReply(true, "")),
                      Database.Balance(claims.tenantId, claims.sub))
  {
  }

  /** Such a run, with two requests for a balance, whatever the hash, as long as its digests are not empty. */
  lemma {:induction false} OneGrantServesTwo(h: Hash, start: int) returns (actions: seq<Action>)
    requires h.digest("verifier") != "" && h.digest("token") != ""
    ensures ServedFromOneGrant(Run(RealChecks(h, false, false), Start(start), actions))
  {
    var key := PublicKey(1, 1);
    var claims := ClaimsFor("client-bob", ClientThumbprint(h, key), start);
    BalanceRequestIsGood(h, key, "token", "b", start);
    BalanceRequestIsGood(h, key, "token", "c", start);
    BalanceRequestUnopposed(h, key, "token", "b", start, claims);
    BalanceRequestUnopposed(h, key, "token", "c", start, claims);
    var balance := Database.Balance(claims.tenantId, claims.sub);
    actions := TwoServedOneGrant(
      h, false, false, start, BobsQuery(h), "verifier", BobsForm(h, start, "a"), key, "a", "token",
      BalanceRequest(h, key, "token", "b", start), BalanceRequest(h, key, "token", "c", start), BALANCE_URI, "b", "c",
      Some(Gateway.PolicyReply(true, "")), balance, balance);
  }

  // ----- one code, two tokens

  /** Both calls, the last two, have loaded the code. */
  predicate BothLoaded(s: State, n: nat, form: TokenForm, form': TokenForm, info: CodeInfo) {
    && |s.tokenCalls| == n + 2 && s.tokenCalls[n].form == form && s.tokenCalls[n + 1].form == form'
    && s.tokenCalls[n].pc == Found(info) && s.tokenCalls[n + 1].pc == Found(info)
    && CodeStore.IsLoad(s.codes.log, s.tokenCalls[n].redemption) && CodeStore.IsLoad(s.codes.log, s.tokenCalls[n + 1].redemption)
  }

  lemma {:induction false} TwoArrive(c: Checks, s: State, form: TokenForm, form': TokenForm)
    ensures Run(c, s, [TokenArrives(form), TokenArrives(form')])
         == s.(tokenCalls := s.tokenCalls + [TokenCall(form, "", 0, Arrived), TokenCall(form', "", 0, Arrived)])
  {
    RunTwo(c, s, TokenArrives(form), TokenArrives(form'));
    assert s.tokenCalls + [TokenCall(form, "", 0, Arrived)] + [TokenCall(form', "", 0, Arrived)]
        == s.tokenCalls + [TokenCall(form, "", 0, Arrived), TokenCall(form', "", 0, Arrived)];
  }

  /** Two calls find a code if neither has come to deleting it. */
  lemma {:induction false} TwoFind(c: Checks, s: State, code: string, form: TokenForm, form': TokenForm) returns (actions: seq<Action>)
    requires code in s.codes.entries && form.code == form'.code == code && c.form(form).None? && c.form(form').None?
    ensures var s' := Run(c, s, actions);
      && BothLoaded(s', |s.tokenCalls|, form, form', s.codes.entries[code])
      && s'.now == s.now && s'.issues == s.issues && s'.idp == s.idp
  {
    var n := |s.tokenCalls|;
    var arrivals, a, b := [TokenArrives(form), TokenArrives(form')], TokenStep(n, "", s.now), TokenStep(n + 1, "", s.now);
    TwoArrive(c, s, form, form');
    var s1 := Run(c, s, arrivals);
    FindPasses(c, s1, n, "");
    FindPasses(c, Next(c, s1, a), n + 1, "");
    RunTwo(c, s1, a, b);
    RunConcat(c, s, arrivals, [a, b]);
    actions := arrivals + [a, b];
  }

  /** Two tokens have been earned, by two calls, with one code. */
  predicate TwoEarned(s: State, text: string, text': string) {
    && text != text' && Earned(s, text) && Earned(s, text') && s.issues[text].call != s.issues[text'].call
    && EarnerOf(s, text).form.code == EarnerOf(s, text').form.code
  }

  lemma {:induction false} BothAreEarned(
      c: Checks, s: State, n: nat, form: TokenForm, form': TokenForm, info: CodeInfo, text: string, text': string,
      jkt: string, jti: string, jti': string)
    returns (actions: seq<Action>)
    requires BothLoaded(s, n, form, form', info) && form.code == form'.code && s.now <= info.expiresAt
    requires c.code(form, info.challenge, info.client).None? && c.code(form', info.challenge, info.client).None?
    requires c.idpProof(form, s.now) == Ok((jkt, jti)) && c.idpProof(form', s.now) == Ok((jkt, jti'))
    requires text !in s.issues && text' !in s.issues && text != text' && jti != jti' && Free(s.idp, jti, s.now) && Free(s.idp, jti', s.now)
    ensures TwoEarned(Run(c, s, actions), text, text')
  {
    var first := FoundIsEarned(c, s, n, text, jkt, jti);
    var s1 := Run(c, s, first);
    var second := FoundIsEarned(c, s1, n + 1, text', jkt, jti');
    RunConcat(c, s, first, second);
    actions := first + second;
  }

  /** From any state: two requests with one fresh code, each with a proof of its own, earn two tokens if both load it before one deletes it. */
  lemma {:induction false} OverlappingRedemptions(
      h: Hash, enforceZiti: bool, failOpen: bool, s: State, q: AuthorizeQuery, verifier: string, form: TokenForm, form': TokenForm,
      key: PublicKey, jti: string, jti': string, text: string, text': string)
    returns (actions: seq<Action>)
    requires OnField(key) && GoodQuery(h, q, verifier) && form.code == form'.code && form.code !in s.grants
    requires GoodForm(h, form, q, verifier, key, jti, s.now) && GoodForm(h, form', q, verifier, key, jti', s.now)
    requires text !in s.issues && text' !in s.issues && text != text' && jti != jti' && Free(s.idp, jti, s.now) && Free(s.idp, jti', s.now)
    ensures TwoEarned(Run(RealChecks(h, enforceZiti, failOpen), s, actions), text, text')
  {
    var c, ask := RealChecks(h, enforceZiti, failOpen), Authorize(q, form.code);
    GoodFormPasses(h, form, q, verifier, key, jti, s.now);
    GoodFormPasses(h, form', q, verifier, key, jti', s.now);
    AskPasses(c, s, q, form.code);
    var s1 := Next(c, s, ask);
    RunOne(c, s, ask);
    var find := TwoFind(c, s1, form.code, form, form');
    var s2 := Run(c, s1, find);
    var earn := BothAreEarned(c, s2, |s.tokenCalls|, form, form', s1.codes.entries[form.code], text, text', ClientThumbprint(h, key), jti, jti');
    RunConcat(c, s1, find, earn);
    RunConcat(c, s, [ask], find + earn);
    actions := [ask] + (find + earn);
  }

  /** Such a run, whatever the hash, as long as the verifier's digest is not empty. */
  lemma {:induction false} OneCodeEarnsTwo(h: Hash, start: int) returns (actions: seq<Action>)
    requires h.digest("verifier") != ""
    ensures TwoEarned(Run(RealChecks(h, false, false), Start(start), actions), "t", "u")
  {
    assert OnField(PublicKey(1, 1));
    actions := OverlappingRedemptions(h, false, false, Start(start), BobsQuery(h), "verifier",
                                      BobsForm(h, start, "a"), BobsForm(h, start, "b"), PublicKey(1, 1), "a", "b", "t", "u");
  }
}
