/**
 * The token protocol as a step system: any number of clients, honest or not, call the IdP and the
 * gateway; every handler goes through its checks one at a time while other calls, the clock and the
 * sweepers move on. A token verifies if the IdP has issued it, and a proof if the key it names has
 * signed it. The checks themselves are a parameter, so that the invariants rest on their order alone;
 * module Agreement puts in those of the code.
 */
module Protocol {
  import opened Common
  import opened TtlStore
  import opened Idp
  import opened ReplayCache
  import CodeStore
  import Gateway
  import Database

  /** The checks of both servers, in the order in which a request meets them. A status is a refusal. */
  datatype Checks = Checks(
    authorize: AuthorizeQuery -> Option<IdpError>,
    form: TokenForm -> Option<IdpError>,
    code: (TokenForm, string, string) -> Option<IdpError>,
    idpProof: (TokenForm, int) -> Result<(string, string)>,
    claims: (string, string, int) -> Claims,
    apiProof: (Gateway.ApiRequest, int) -> Gateway.Checked<(string, string, string)>,
    token: (Claims, string, int) -> Option<Gateway.Status>,
    identity: (Gateway.ApiRequest, Claims) -> Option<Gateway.Status>,
    policy: Option<Gateway.PolicyReply> -> Option<Gateway.Status>,
    handler: (Gateway.ApiRequest, Claims) -> Gateway.Checked<Database.Request>)

  // ----- calls under way

  /** A code that was saved for an authorization request. No step reads it but to draw a fresh code. */
  datatype Grant = Grant(q: AuthorizeQuery, at: int)

  /** What the proof of a token request has shown, and when. */
  datatype KeyProof = KeyProof(jkt: string, jti: string, at: int)

  datatype TokenPc =
    | Arrived
    | Found(info: CodeInfo)
    | Taken(info: CodeInfo)
    | Holding(redeemedAt: int)
    | Proved(redeemedAt: int, key: KeyProof)
    | Storing(redeemedAt: int, key: KeyProof, load: nat)
    | Admitted(redeemedAt: int, key: KeyProof)
    | Ended(token: string)
    | TurnedAway(error: IdpError)

  /** `redemption` is the event of the code store that was its load, once it has found its code. */
  datatype TokenCall = TokenCall(form: TokenForm, client: string, redemption: nat, pc: TokenPc)

  /** A token issued: its claims, when, and by which call. */
  datatype Issue = Issue(claims: Claims, at: int, call: nat, redeemedAt: int, key: KeyProof)

  /** What an API request has shown when the replay cache has let it through: the proof at `at`, and which event its load was. */
  datatype Evidence = Evidence(jkt: string, jti: string, token: string, at: int, load: nat)

  datatype ApiPc =
    | Received
    | Shown(jkt: string, jti: string, token: string, at: int)
    | Writing
    | Unreplayed
    | Authenticated(claims: Claims, at: int)
    | Serving(claims: Claims, at: int, policy: Option<Gateway.PolicyReply>, request: Database.Request)
    | Refused(status: Gateway.Status)

  datatype ApiCall = ApiCall(req: Gateway.ApiRequest, pc: ApiPc, evidence: Option<Evidence>)

  datatype State = State(
    now: int, codes: CodeStore.Codes, idp: Cache, gateway: Cache,
    grants: map<string, Grant>, issues: map<string, Issue>, tokenCalls: seq<TokenCall>, apiCalls: seq<ApiCall>)

  function Start(now: int): State {
    State(now, CodeStore.EMPTY, EMPTY, EMPTY, map[], map[], [], [])
  }

  datatype Action =
    | Tick(delta: nat)
    | Authorize(q: AuthorizeQuery, code: string)
    | TokenArrives(form: TokenForm)
    | TokenStep(i: nat, text: string, readAt: int)
    | ApiArrives(req: Gateway.ApiRequest)
    | ApiStep(j: nat, keyKnown: bool, policy: Option<Gateway.PolicyReply>, readAt: int)
    | LookAtCode(key: string, readAt: int)
    | DropCode(look: nat)
    | LookAtIdpJti(key: string, readAt: int)
    | DropIdpJti(look: nat)
    | LookAtGatewayJti(key: string, readAt: int)
    | DropGatewayJti(look: nat)

  // ----- the token endpoint

  function SetToken(s: State, i: nat, pc: TokenPc): State
    requires i < |s.tokenCalls|
  {
    s.(tokenCalls := s.tokenCalls[i := s.tokenCalls[i].(pc := pc)])
  }

  /** The form is checked, and the code loaded. */
  function FindStep(c: Checks, s: State, i: nat): State
    requires i < |s.tokenCalls|
  {
    var form := s.tokenCalls[i].form;
    if c.form(form).Some? then SetToken(s, i, TurnedAway(c.form(form).value))
    else
      var (found, codes) := CodeStore.DoLoad(s.codes, form.code, s.now);
      if found.None? then SetToken(s, i, TurnedAway(InvalidGrant)).(codes := codes)
      else s.(tokenCalls := s.tokenCalls[i := s.tokenCalls[i].(redemption := |s.codes.log|, pc := Found(found.value))], codes := codes)
  }

  function TakeStep(s: State, i: nat): State
    requires i < |s.tokenCalls| && s.tokenCalls[i].pc.Found? && CodeStore.IsLoad(s.codes.log, s.tokenCalls[i].redemption)
  {
    SetToken(s, i, Taken(s.tokenCalls[i].pc.info)).(codes := CodeStore.DoRemove(s.codes, s.tokenCalls[i].redemption, s.now))
  }

  /** The expiry, and then the client's secret and the code verifier. */
  function CheckStep(c: Checks, s: State, i: nat): State
    requires i < |s.tokenCalls| && s.tokenCalls[i].pc.Taken?
  {
    var call, info := s.tokenCalls[i], s.tokenCalls[i].pc.info;
    var refused := c.code(call.form, info.challenge, info.client);
    if s.now > info.expiresAt then SetToken(s, i, TurnedAway(InvalidGrant))
    else if refused.Some? then SetToken(s, i, TurnedAway(refused.value))
    else s.(tokenCalls := s.tokenCalls[i := call.(client := info.client, pc := Holding(s.now))])
  }

  function ProveStep(c: Checks, s: State, i: nat): State
    requires i < |s.tokenCalls| && s.tokenCalls[i].pc.Holding?
  {
    var call := s.tokenCalls[i];
    var p := c.idpProof(call.form, s.now);
    SetToken(s, i, if p.Err? then TurnedAway(ProofError(call.form))
                   else Proved(call.pc.redeemedAt, KeyProof(p.value.0, p.value.1, s.now)))
  }

  /** LoadOrStore of the jti, with a clock read since the proof was checked. */
  function LoadJtiStep(s: State, i: nat, readAt: int): State
    requires i < |s.tokenCalls| && s.tokenCalls[i].pc.Proved?
  {
    var pc := s.tokenCalls[i].pc;
    var (a, idp) := DoLoad(s.idp, pc.key.jti, readAt, JTI_TTL, s.now);
    SetToken(s, i, match a
                   case Used => TurnedAway(InvalidDpopProof)
                   case Let => Admitted(pc.redeemedAt, pc.key)
                   case MustStore => Storing(pc.redeemedAt, pc.key, |s.idp.log|)).(idp := idp)
  }

  function StoreJtiStep(s: State, i: nat): State
    requires i < |s.tokenCalls| && s.tokenCalls[i].pc.Storing? && IsLoad(s.idp.log, s.tokenCalls[i].pc.load)
  {
    var pc := s.tokenCalls[i].pc;
    SetToken(s, i, Admitted(pc.redeemedAt, pc.key)).(idp := DoStore(s.idp, pc.load, s.now))
  }

  /** The text of a token ends in a signature and never comes out twice. */
  function IssueStep(c: Checks, s: State, i: nat, text: string): State
    requires i < |s.tokenCalls| && s.tokenCalls[i].pc.Admitted?
  {
    var call := s.tokenCalls[i];
    if text in s.issues then s
    else
      SetToken(s, i, Ended(text))
        .(issues := s.issues[text := Issue(c.claims(call.client, call.pc.key.jkt, s.now), s.now, i, call.pc.redeemedAt, call.pc.key)])
  }

  function TokenNext(c: Checks, s: State, i: nat, text: string, readAt: int): State
    requires i < |s.tokenCalls|
  {
    match s.tokenCalls[i].pc
    case Arrived => FindStep(c, s, i)
    case Found(_) => if CodeStore.IsLoad(s.codes.log, s.tokenCalls[i].redemption) then TakeStep(s, i) else s
    case Taken(_) => CheckStep(c, s, i)
    case Holding(_) => ProveStep(c, s, i)
    case Proved(_, key) => if key.at <= readAt <= s.now then LoadJtiStep(s, i, readAt) else s
    case Storing(_, _, load) => if IsLoad(s.idp.log, load) then StoreJtiStep(s, i) else s
    case Admitted(_, _) => IssueStep(c, s, i, text)
    case _ => s
  }

  // ----- the gateway

  function SetApi(s: State, j: nat, pc: ApiPc): State
    requires j < |s.apiCalls|
  {
    s.(apiCalls := s.apiCalls[j := s.apiCalls[j].(pc := pc)])
  }

  function ShowStep(c: Checks, s: State, j: nat): State
    requires j < |s.apiCalls|
  {
    var p := c.apiProof(s.apiCalls[j].req, s.now);
    SetApi(s, j, if p.Stopped? then Refused(p.status) else Shown(p.value.0, p.value.1, p.value.2, s.now))
  }

  /** LoadOrStore of the jti; a request that has to store over an expired entry is let through all the same. */
  function ReplayStep(s: State, j: nat, readAt: int): State
    requires j < |s.apiCalls| && s.apiCalls[j].pc.Shown?
  {
    var call := s.apiCalls[j];
    var (a, gateway) := DoLoad(s.gateway, call.pc.jti, readAt, JTI_TTL, s.now);
    var e := Evidence(call.pc.jkt, call.pc.jti, call.pc.token, call.pc.at, |s.gateway.log|);
    if a.Used? then SetApi(s, j, Refused(Gateway.Unauthorized)).(gateway := gateway)
    else s.(apiCalls := s.apiCalls[j := ApiCall(call.req, if a.Let? then Unreplayed else Writing, Some(e))], gateway := gateway)
  }

  function WriteStep(s: State, j: nat): State
    requires j < |s.apiCalls| && s.apiCalls[j].evidence.Some? && IsLoad(s.gateway.log, s.apiCalls[j].evidence.value.load)
  {
    SetApi(s, j, Unreplayed).(gateway := DoStore(s.gateway, s.apiCalls[j].evidence.value.load, s.now))
  }

  /** The signature holds if the key set gives the IdP's key and the IdP has issued this very text. */
  function VerifyStep(c: Checks, s: State, j: nat, keyKnown: bool): State
    requires j < |s.apiCalls| && s.apiCalls[j].evidence.Some?
  {
    var call, e := s.apiCalls[j], s.apiCalls[j].evidence.value;
    if !keyKnown || e.token !in s.issues then SetApi(s, j, Refused(Gateway.Unauthorized))
    else
      var claims := s.issues[e.token].claims;
      var refused, foreign := c.token(claims, e.jkt, s.now), c.identity(call.req, claims);
      SetApi(s, j, if refused.Some? then Refused(refused.value) else if foreign.Some? then Refused(foreign.value)
                   else Authenticated(claims, s.now))
  }

  /** The policy, then the handler's own checks. */
  function ServeStep(c: Checks, s: State, j: nat, policy: Option<Gateway.PolicyReply>): State
    requires j < |s.apiCalls| && s.apiCalls[j].pc.Authenticated?
  {
    var call := s.apiCalls[j];
    var denied, q := c.policy(policy), c.handler(call.req, call.pc.claims);
    SetApi(s, j, if denied.Some? then Refused(denied.value) else if q.Stopped? then Refused(q.status)
                 else Serving(call.pc.claims, call.pc.at, policy, q.value))
  }

  function ApiNext(c: Checks, s: State, j: nat, keyKnown: bool, policy: Option<Gateway.PolicyReply>, readAt: int): State
    requires j < |s.apiCalls|
  {
    match s.apiCalls[j].pc
    case Received => ShowStep(c, s, j)
    case Shown(_, _, _, at) => if at <= readAt <= s.now then ReplayStep(s, j, readAt) else s
    case Writing =>
      if s.apiCalls[j].evidence.Some? && IsLoad(s.gateway.log, s.apiCalls[j].evidence.value.load) then WriteStep(s, j) else s
    case Unreplayed => if s.apiCalls[j].evidence.Some? then VerifyStep(c, s, j, keyKnown) else s
    case Authenticated(_, _) => ServeStep(c, s, j, policy)
    case _ => s
  }

  // ----- runs

  /** One step; a step that cannot happen changes nothing. A code is random and never comes out twice. */
  function Next(c: Checks, s: State, a: Action): State {
    match a
    case Tick(delta) => s.(now := s.now + delta)
    case Authorize(q, code) =>
      if c.authorize(q).Some? || code in s.grants then s
      else s.(codes := CodeStore.DoSave(s.codes, code, CodeInfo(q.codeChallenge, q.clientId, s.now + CODE_TTL), s.now),
              grants := s.grants[code := Grant(q, s.now)])
    case TokenArrives(form) => s.(tokenCalls := s.tokenCalls + [TokenCall(form, "", 0, Arrived)])
    case TokenStep(i, text, readAt) => if i < |s.tokenCalls| then TokenNext(c, s, i, text, readAt) else s
    case ApiArrives(req) => s.(apiCalls := s.apiCalls + [ApiCall(req, Received, None)])
    case ApiStep(j, keyKnown, policy, readAt) => if j < |s.apiCalls| then ApiNext(c, s, j, keyKnown, policy, readAt) else s
    case LookAtCode(key, readAt) => if readAt <= s.now then s.(codes := CodeStore.DoLook(s.codes, key, readAt, s.now)) else s
    case DropCode(look) => s.(codes := CodeStore.DoSweep(s.codes, look, s.now))
    case LookAtIdpJti(key, readAt) => if readAt <= s.now then s.(idp := DoLook(s.idp, key, readAt, s.now)) else s
    case DropIdpJti(look) => s.(idp := DoDelete(s.idp, look, s.now))
    case LookAtGatewayJti(key, readAt) => if readAt <= s.now then s.(gateway := DoLook(s.gateway, key, readAt, s.now)) else s
    case DropGatewayJti(look) => s.(gateway := DoDelete(s.gateway, look, s.now))
  }

  function Run(c: Checks, s: State, actions: seq<Action>): State {
    if actions == [] then s else Next(c, Run(c, s, actions[..|actions| - 1]), actions[|actions| - 1])
  }

  // ----- what every step keeps

  predicate IsGrant(s: State, code: string, info: CodeInfo) {
    code in s.grants && info == CodeInfo(s.grants[code].q.codeChallenge, s.grants[code].q.clientId, s.grants[code].at + CODE_TTL)
  }

  /** Every code in the store is a grant. */
  predicate GrantsOk(c: Checks, s: State) {
    && (forall k :: k in s.grants ==> s.grants[k].at <= s.now && c.authorize(s.grants[k].q).None?)
    && (forall k :: k in s.codes.entries ==> IsGrant(s, k, s.codes.entries[k]))
  }

  /** The call has redeemed its code, and its checks have passed. */
  predicate Past(pc: TokenPc) {
    pc.Holding? || pc.Proved? || pc.Storing? || pc.Admitted? || pc.Ended?
  }

  predicate InTime(g: Grant, redeemedAt: int, now: int) {
    g.at <= redeemedAt <= g.at + CODE_TTL && redeemedAt <= now
  }

  /** The form has passed the checks of the grant's code, and its proof those of a proof. */
  predicate Redeems(c: Checks, form: TokenForm, g: Grant) {
    c.form(form).None? && c.code(form, g.q.codeChallenge, g.q.clientId).None?
  }

  predicate Binds(c: Checks, form: TokenForm, key: KeyProof, now: int) {
    c.idpProof(form, key.at) == Ok((key.jkt, key.jti)) && key.at <= now
  }

  predicate TokenOk(c: Checks, s: State, call: TokenCall) {
    && (call.pc.Found? || call.pc.Taken? ==> c.form(call.form).None? && IsGrant(s, call.form.code, call.pc.info))
    && (Past(call.pc) ==>
          && call.form.code in s.grants
          && var g := s.grants[call.form.code];
             && Redeems(c, call.form, g) && call.client == g.q.clientId
             && (!call.pc.Ended? ==> InTime(g, call.pc.redeemedAt, s.now))
             && (call.pc.Proved? || call.pc.Storing? || call.pc.Admitted? ==> Binds(c, call.form, call.pc.key, s.now)))
  }

  /** A token traces back to the call that earned it and the grant that call redeemed. */
  predicate Traced(c: Checks, s: State, token: string)
    requires token in s.issues
  {
    var issue := s.issues[token];
    && issue.call < |s.tokenCalls| && s.tokenCalls[issue.call].pc == Ended(token)
    && var form := s.tokenCalls[issue.call].form;
       && form.code in s.grants
       && var g := s.grants[form.code];
          && issue.claims == c.claims(g.q.clientId, issue.key.jkt, issue.at) && Binds(c, form, issue.key, issue.at)
          && InTime(g, issue.redeemedAt, issue.at) && issue.at <= s.now
  }

  ghost predicate TokenInv(c: Checks, s: State) {
    && GrantsOk(c, s)
    && (forall i :: 0 <= i < |s.tokenCalls| ==> TokenOk(c, s, s.tokenCalls[i]))
    && (forall t :: t in s.issues ==> Traced(c, s, t))
  }

  /** Grants and issued tokens stay. */
  ghost predicate Grows(s: State, s': State) {
    && s.now <= s'.now
    && (forall k :: k in s.grants ==> k in s'.grants && s'.grants[k] == s.grants[k])
    && (forall t :: t in s.issues ==> t in s'.issues && s'.issues[t] == s.issues[t])
  }

  // ----- the token endpoint keeps its invariant

  lemma {:induction false} TokenFrame(c: Checks, s: State, s': State, call: TokenCall)
    requires TokenOk(c, s, call) && Grows(s, s')
    ensures TokenOk(c, s', call)
  {
  }

  /** What a step of call `i` may do: it adds no code. */
  ghost predicate CallSteps(s: State, s': State, i: nat) {
    && i < |s.tokenCalls| && |s'.tokenCalls| == |s.tokenCalls| && s'.tokenCalls == s.tokenCalls[i := s'.tokenCalls[i]]
    && s'.tokenCalls[i].form == s.tokenCalls[i].form && !s.tokenCalls[i].pc.Ended?
  }

  lemma {:induction false} TracedStep(c: Checks, s: State, s': State, i: nat, t: string)
    requires CallSteps(s, s', i) && Grows(s, s') && t in s.issues && Traced(c, s, t)
    ensures t in s'.issues && Traced(c, s', t)
  {
  }

  /** Such a step leaves the other calls and the tokens alone. */
  lemma {:induction false} TokenCallStep(c: Checks, s: State, s': State, i: nat)
    requires TokenInv(c, s) && CallSteps(s, s', i) && GrantsOk(c, s') && Grows(s, s')
    requires TokenOk(c, s', s'.tokenCalls[i])
    requires forall t :: t in s'.issues && t !in s.issues ==> Traced(c, s', t)
    ensures TokenInv(c, s')
  {
    forall j | 0 <= j < |s'.tokenCalls| ensures TokenOk(c, s', s'.tokenCalls[j]) {
      if j != i {
        TokenFrame(c, s, s', s.tokenCalls[j]);
      }
    }
    forall t | t in s'.issues ensures Traced(c, s', t) {
      if t in s.issues {
        TracedStep(c, s, s', i, t);
      }
    }
  }

  /** The call is turned away, or holds what the store has for its code; the store keeps it. */
  ghost predicate FindsCode(c: Checks, s: State, s': State, i: nat)
    requires i < |s.tokenCalls| == |s'.tokenCalls|
  {
    var call, m := s'.tokenCalls[i], s.codes.entries;
    && s'.now == s.now && s'.grants == s.grants && s'.issues == s.issues && s'.codes.entries == m
    && (call.pc.TurnedAway?
        || (call.pc.Found? && call.form.code in m && call.pc.info == m[call.form.code] && c.form(call.form).None?))
  }

  lemma {:induction false} FindShape(c: Checks, s: State, i: nat)
    requires i < |s.tokenCalls| && s.tokenCalls[i].pc.Arrived?
    ensures CallSteps(s, FindStep(c, s, i), i) && FindsCode(c, s, FindStep(c, s, i), i)
  {
  }

  lemma {:induction false} FindOk(c: Checks, s: State, s': State, i: nat)
    requires GrantsOk(c, s) && CallSteps(s, s', i) && FindsCode(c, s, s', i)
    ensures GrantsOk(c, s') && TokenOk(c, s', s'.tokenCalls[i])
  {
  }

  lemma {:induction false} FindKeeps(c: Checks, s: State, i: nat)
    requires TokenInv(c, s) && i < |s.tokenCalls| && s.tokenCalls[i].pc.Arrived?
    ensures TokenInv(c, FindStep(c, s, i)) && Grows(s, FindStep(c, s, i))
  {
    FindShape(c, s, i);
    FindOk(c, s, FindStep(c, s, i), i);
    TokenCallStep(c, s, FindStep(c, s, i), i);
  }

  lemma {:induction false} TakeKeeps(c: Checks, s: State, i: nat)
    requires TokenInv(c, s) && i < |s.tokenCalls| && s.tokenCalls[i].pc.Found?
    requires CodeStore.IsLoad(s.codes.log, s.tokenCalls[i].redemption)
    ensures TokenInv(c, TakeStep(s, i)) && Grows(s, TakeStep(s, i))
  {
    assert TokenOk(c, s, s.tokenCalls[i]);
    TokenCallStep(c, s, TakeStep(s, i), i);
  }

  lemma {:induction false} CheckOk(c: Checks, s: State, i: nat)
    requires TokenInv(c, s) && i < |s.tokenCalls| && s.tokenCalls[i].pc.Taken?
    ensures var s' := CheckStep(c, s, i); CallSteps(s, s', i) && s' == s.(tokenCalls := s'.tokenCalls) && TokenOk(c, s', s'.tokenCalls[i])
  {
    assert TokenOk(c, s, s.tokenCalls[i]);
  }

  lemma {:induction false} CheckKeeps(c: Checks, s: State, i: nat)
    requires TokenInv(c, s) && i < |s.tokenCalls| && s.tokenCalls[i].pc.Taken?
    ensures TokenInv(c, CheckStep(c, s, i)) && Grows(s, CheckStep(c, s, i))
  {
    CheckOk(c, s, i);
    TokenCallStep(c, s, CheckStep(c, s, i), i);
  }

  lemma {:induction false} ProveKeeps(c: Checks, s: State, i: nat)
    requires TokenInv(c, s) && i < |s.tokenCalls| && s.tokenCalls[i].pc.Holding?
    ensures TokenInv(c, ProveStep(c, s, i)) && Grows(s, ProveStep(c, s, i))
  {
    assert TokenOk(c, s, s.tokenCalls[i]);
    TokenCallStep(c, s, ProveStep(c, s, i), i);
  }

  lemma {:induction false} LoadJtiKeeps(c: Checks, s: State, i: nat, readAt: int)
    requires TokenInv(c, s) && i < |s.tokenCalls| && s.tokenCalls[i].pc.Proved?
    ensures TokenInv(c, LoadJtiStep(s, i, readAt)) && Grows(s, LoadJtiStep(s, i, readAt))
  {
    assert TokenOk(c, s, s.tokenCalls[i]);
    TokenCallStep(c, s, LoadJtiStep(s, i, readAt), i);
  }

  lemma {:induction false} StoreJtiKeeps(c: Checks, s: State, i: nat)
    requires TokenInv(c, s) && i < |s.tokenCalls| && s.tokenCalls[i].pc.Storing? && IsLoad(s.idp.log, s.tokenCalls[i].pc.load)
    ensures TokenInv(c, StoreJtiStep(s, i)) && Grows(s, StoreJtiStep(s, i))
  {
    assert TokenOk(c, s, s.tokenCalls[i]);
    TokenCallStep(c, s, StoreJtiStep(s, i), i);
  }

  lemma {:induction false} IssueIsTraced(c: Checks, s: State, i: nat, text: string)
    requires i < |s.tokenCalls| && s.tokenCalls[i].pc.Admitted? && TokenOk(c, s, s.tokenCalls[i]) && text !in s.issues
    ensures var s' := IssueStep(c, s, i, text); text in s'.issues && Traced(c, s', text) && TokenOk(c, s', s'.tokenCalls[i])
  {
  }

  lemma {:induction false} IssueKeeps(c: Checks, s: State, i: nat, text: string)
    requires TokenInv(c, s) && i < |s.tokenCalls| && s.tokenCalls[i].pc.Admitted?
    ensures TokenInv(c, IssueStep(c, s, i, text)) && Grows(s, IssueStep(c, s, i, text))
  {
    assert TokenOk(c, s, s.tokenCalls[i]);
    if text !in s.issues {
      IssueIsTraced(c, s, i, text);
      TokenCallStep(c, s, IssueStep(c, s, i, text), i);
    }
  }

  /** Steps that leave the token calls as they are, but perhaps for a new one. */
  lemma {:induction false} OtherKeeps(c: Checks, s: State, s': State)
    requires TokenInv(c, s) && GrantsOk(c, s') && Grows(s, s') && s'.issues == s.issues
    requires s.tokenCalls <= s'.tokenCalls && forall i :: |s.tokenCalls| <= i < |s'.tokenCalls| ==> s'.tokenCalls[i].pc.Arrived?
    ensures TokenInv(c, s')
  {
    forall j | 0 <= j < |s'.tokenCalls| ensures TokenOk(c, s', s'.tokenCalls[j]) {
      if j < |s.tokenCalls| {
        TokenFrame(c, s, s', s.tokenCalls[j]);
      }
    }
    forall t | t in s'.issues ensures Traced(c, s', t) {
      assert Traced(c, s, t);
    }
  }

  /** What a step of the gateway leaves alone. */
  ghost predicate ApiOnly(s: State, s': State, j: nat) {
    && s' == s.(gateway := s'.gateway, apiCalls := s'.apiCalls)
    && j < |s.apiCalls| == |s'.apiCalls| && s'.apiCalls == s.apiCalls[j := s'.apiCalls[j]] && s'.apiCalls[j].req == s.apiCalls[j].req
  }

  lemma {:induction false} ApiShapeFirst(c: Checks, s: State, j: nat, readAt: int)
    requires j < |s.apiCalls|
    ensures ApiOnly(s, ShowStep(c, s, j), j)
    ensures s.apiCalls[j].pc.Shown? ==> ApiOnly(s, ReplayStep(s, j, readAt), j)
  {
  }

  lemma {:induction false} ApiShapeLast(c: Checks, s: State, j: nat, keyKnown: bool, policy: Option<Gateway.PolicyReply>)
    requires j < |s.apiCalls|
    ensures s.apiCalls[j].evidence.Some? ==> ApiOnly(s, VerifyStep(c, s, j, keyKnown), j)
    ensures s.apiCalls[j].pc.Authenticated? ==> ApiOnly(s, ServeStep(c, s, j, policy), j)
    ensures s.apiCalls[j].evidence.Some? && IsLoad(s.gateway.log, s.apiCalls[j].evidence.value.load) ==> ApiOnly(s, WriteStep(s, j), j)
  {
  }

  lemma {:induction false} ApiShape(c: Checks, s: State, j: nat, keyKnown: bool, policy: Option<Gateway.PolicyReply>, readAt: int)
    requires j < |s.apiCalls|
    ensures ApiOnly(s, ApiNext(c, s, j, keyKnown, policy, readAt), j)
  {
    match s.apiCalls[j].pc
    case Received => ApiShapeFirst(c, s, j, readAt);
    case Shown(_, _, _, _) => ApiShapeFirst(c, s, j, readAt);
    case Writing => ApiShapeLast(c, s, j, keyKnown, policy);
    case Unreplayed => ApiShapeLast(c, s, j, keyKnown, policy);
    case Authenticated(_, _) => ApiShapeLast(c, s, j, keyKnown, policy);
    case _ =>
  }

  lemma {:induction false} TokenStepKeeps(c: Checks, s: State, i: nat, text: string, readAt: int)
    requires TokenInv(c, s) && i < |s.tokenCalls|
    ensures TokenInv(c, TokenNext(c, s, i, text, readAt)) && Grows(s, TokenNext(c, s, i, text, readAt))
  {
    match s.tokenCalls[i].pc
    case Arrived => FindKeeps(c, s, i);
    case Found(_) =>
      if CodeStore.IsLoad(s.codes.log, s.tokenCalls[i].redemption) {
        TakeKeeps(c, s, i);
      }
    case Taken(_) => CheckKeeps(c, s, i);
    case Holding(_) => ProveKeeps(c, s, i);
    case Proved(_, _) => LoadJtiKeeps(c, s, i, readAt);
    case Storing(_, _, load) =>
      if IsLoad(s.idp.log, load) {
        StoreJtiKeeps(c, s, i);
      }
    case Admitted(_, _) => IssueKeeps(c, s, i, text);
    case _ =>
  }

  lemma {:induction false} ApiKeeps(c: Checks, s: State, j: nat, keyKnown: bool, policy: Option<Gateway.PolicyReply>, readAt: int)
    requires TokenInv(c, s) && j < |s.apiCalls|
    ensures TokenInv(c, ApiNext(c, s, j, keyKnown, policy, readAt)) && Grows(s, ApiNext(c, s, j, keyKnown, policy, readAt))
  {
    ApiShape(c, s, j, keyKnown, policy, readAt);
    OtherKeeps(c, s, ApiNext(c, s, j, keyKnown, policy, readAt));
  }

  lemma {:induction false} NewGrantOk(c: Checks, s: State, s': State, q: AuthorizeQuery, code: string)
    requires GrantsOk(c, s) && s' == Next(c, s, Authorize(q, code))
    ensures GrantsOk(c, s')
  {
  }

  lemma {:induction false} AuthorizeKeeps(c: Checks, s: State, q: AuthorizeQuery, code: string)
    requires TokenInv(c, s)
    ensures TokenInv(c, Next(c, s, Authorize(q, code))) && Grows(s, Next(c, s, Authorize(q, code)))
  {
    NewGrantOk(c, s, Next(c, s, Authorize(q, code)), q, code);
    OtherKeeps(c, s, Next(c, s, Authorize(q, code)));
  }

  /** Sweepers look and delete, and nothing else happens. */
  ghost predicate Swept(s: State, s': State) {
    && s' == s.(codes := s'.codes, idp := s'.idp, gateway := s'.gateway)
    && forall k :: k in s'.codes.entries ==> k in s.codes.entries && s'.codes.entries[k] == s.codes.entries[k]
  }

  lemma {:induction false} SweepingKeeps(c: Checks, s: State, s': State)
    requires TokenInv(c, s) && Swept(s, s')
    ensures TokenInv(c, s') && Grows(s, s')
  {
    OtherKeeps(c, s, s');
  }

  predicate IsSweep(a: Action) {
    a.LookAtCode? || a.DropCode? || a.LookAtIdpJti? || a.DropIdpJti? || a.LookAtGatewayJti? || a.DropGatewayJti?
  }

  lemma {:induction false} SweepsSweep(c: Checks, s: State, a: Action)
    requires IsSweep(a)
    ensures Swept(s, Next(c, s, a))
  {
  }

  lemma {:induction false} TickKeeps(c: Checks, s: State, delta: nat)
    requires TokenInv(c, s)
    ensures TokenInv(c, Next(c, s, Tick(delta))) && Grows(s, Next(c, s, Tick(delta)))
  {
    OtherKeeps(c, s, Next(c, s, Tick(delta)));
  }

  lemma {:induction false} TokenArrivalKeeps(c: Checks, s: State, form: TokenForm)
    requires TokenInv(c, s)
    ensures TokenInv(c, Next(c, s, TokenArrives(form))) && Grows(s, Next(c, s, TokenArrives(form)))
  {
    OtherKeeps(c, s, Next(c, s, TokenArrives(form)));
  }

  lemma {:induction false} ApiArrivalKeeps(c: Checks, s: State, req: Gateway.ApiRequest)
    requires TokenInv(c, s)
    ensures TokenInv(c, Next(c, s, ApiArrives(req))) && Grows(s, Next(c, s, ApiArrives(req)))
  {
    OtherKeeps(c, s, Next(c, s, ApiArrives(req)));
  }

  lemma {:induction false} TokenInvStep(c: Checks, s: State, a: Action)
    requires TokenInv(c, s)
    ensures TokenInv(c, Next(c, s, a)) && Grows(s, Next(c, s, a))
  {
    if IsSweep(a) {
      SweepsSweep(c, s, a);
      SweepingKeeps(c, s, Next(c, s, a));
    } else {
      match a
      case Authorize(q, code) => AuthorizeKeeps(c, s, q, code);
      case TokenStep(i, text, readAt) =>
        if i < |s.tokenCalls| {
          TokenStepKeeps(c, s, i, text, readAt);
        }
      case ApiStep(j, keyKnown, policy, readAt) =>
        if j < |s.apiCalls| {
          ApiKeeps(c, s, j, keyKnown, policy, readAt);
        }
      case Tick(delta) => TickKeeps(c, s, delta);
      case TokenArrives(form) => TokenArrivalKeeps(c, s, form);
      case ApiArrives(req) => ApiArrivalKeeps(c, s, req);
    }
  }

  lemma {:induction false} TokenInvRun(c: Checks, start: int, actions: seq<Action>)
    ensures TokenInv(c, Run(c, Start(start), actions))
  {
    if actions != [] {
      TokenInvRun(c, start, actions[..|actions| - 1]);
      TokenInvStep(c, Run(c, Start(start), actions[..|actions| - 1]), actions[|actions| - 1]);
    }
  }
}
