/**
 * What a served request proves: which token it bears, who earned that token and with which key, and
 * that its proof has not been used before.
 */
module Agreement {
  import opened Common
  import opened Jwk
  import opened DpopProof
  import opened TtlStore
  import opened ReplayCache
  import opened Idp
  import opened Protocol
  import CodeStore
  import KeyBinding
  import Gateway

  // ----- what every step keeps of the requests at the gateway

  /** What the request has shown holds up, and the times follow each other. */
  predicate EvidenceOk(c: Checks, req: Gateway.ApiRequest, e: Evidence, now: int) {
    c.apiProof(req, e.at) == Gateway.Passed((e.jkt, e.jti, e.token)) && e.at <= now
  }

  /** The token was live when it was checked, and the network identity fits it. */
  predicate BearsToken(c: Checks, s: State, req: Gateway.ApiRequest, e: Evidence, claims: Claims, at: int) {
    && e.token in s.issues && claims == s.issues[e.token].claims && s.issues[e.token].at <= at
    && c.token(claims, e.jkt, at).None? && c.identity(req, claims).None? && e.at <= at <= s.now
  }

  predicate ApiOk(c: Checks, s: State, call: ApiCall) {
    && (call.evidence.Some? ==> EvidenceOk(c, call.req, call.evidence.value, s.now))
    && match call.pc
       case Received => call.evidence.None?
       case Shown(jkt, jti, token, at) => call.evidence.None? && c.apiProof(call.req, at) == Gateway.Passed((jkt, jti, token)) && at <= s.now
       case Writing => call.evidence.Some?
       case Unreplayed => call.evidence.Some?
       case Authenticated(claims, at) => call.evidence.Some? && BearsToken(c, s, call.req, call.evidence.value, claims, at)
       case Serving(claims, at, policy, request) =>
         && call.evidence.Some? && BearsToken(c, s, call.req, call.evidence.value, claims, at)
         && c.policy(policy).None? && c.handler(call.req, claims) == Gateway.Passed(request)
       case Refused(_) => true
  }

  ghost predicate ApiInv(c: Checks, s: State) {
    forall j :: 0 <= j < |s.apiCalls| ==> ApiOk(c, s, s.apiCalls[j])
  }

  lemma {:induction false} ApiFrame(c: Checks, s: State, s': State, call: ApiCall)
    requires ApiOk(c, s, call) && Grows(s, s')
    ensures ApiOk(c, s', call)
  {
  }

  lemma {:induction false} VerifyOk(c: Checks, s: State, j: nat, keyKnown: bool)
    requires TokenInv(c, s) && j < |s.apiCalls| && s.apiCalls[j].pc.Unreplayed? && ApiOk(c, s, s.apiCalls[j])
    ensures ApiOk(c, VerifyStep(c, s, j, keyKnown), VerifyStep(c, s, j, keyKnown).apiCalls[j])
  {
    var e := s.apiCalls[j].evidence.value;
    if e.token in s.issues {
      assert Traced(c, s, e.token);
    }
  }

  lemma {:induction false} ShowOk(c: Checks, s: State, j: nat)
    requires j < |s.apiCalls| && s.apiCalls[j].pc.Received? && ApiOk(c, s, s.apiCalls[j])
    ensures ApiOk(c, ShowStep(c, s, j), ShowStep(c, s, j).apiCalls[j])
  {
  }

  lemma {:induction false} ReplayOk(c: Checks, s: State, j: nat, readAt: int)
    requires j < |s.apiCalls| && s.apiCalls[j].pc.Shown? && ApiOk(c, s, s.apiCalls[j])
    ensures ApiOk(c, ReplayStep(s, j, readAt), ReplayStep(s, j, readAt).apiCalls[j])
  {
  }

  lemma {:induction false} ServeOk(c: Checks, s: State, j: nat, policy: Option<Gateway.PolicyReply>)
    requires j < |s.apiCalls| && s.apiCalls[j].pc.Authenticated? && ApiOk(c, s, s.apiCalls[j])
    ensures ApiOk(c, ServeStep(c, s, j, policy), ServeStep(c, s, j, policy).apiCalls[j])
  {
  }

  lemma {:induction false} ApiNextOk(c: Checks, s: State, j: nat, keyKnown: bool, policy: Option<Gateway.PolicyReply>, readAt: int)
    requires TokenInv(c, s) && j < |s.apiCalls| && ApiOk(c, s, s.apiCalls[j])
    ensures var s' := ApiNext(c, s, j, keyKnown, policy, readAt); |s'.apiCalls| == |s.apiCalls| && ApiOk(c, s', s'.apiCalls[j])
  {
    match s.apiCalls[j].pc
    case Received => ShowOk(c, s, j);
    case Shown(_, _, _, _) => ReplayOk(c, s, j, readAt);
    case Unreplayed => VerifyOk(c, s, j, keyKnown);
    case Authenticated(_, _) => ServeOk(c, s, j, policy);
    case _ =>
  }

  /** Nothing but a step of the gateway, and an arrival there, touches its calls. */
  lemma {:induction false} ApiUntouched(c: Checks, s: State, a: Action)
    requires !a.ApiStep?
    ensures Next(c, s, a).apiCalls == s.apiCalls + if a.ApiArrives? then [ApiCall(a.req, Received, None)] else []
  {
    if a.TokenStep? && a.i < |s.tokenCalls| {
      TokenShape(c, s, a.i, a.text, a.readAt);
    }
  }

  /** What a step of the token endpoint leaves alone. */
  ghost predicate TokenOnly(s: State, s': State, i: nat) {
    && s' == s.(codes := s'.codes, idp := s'.idp, issues := s'.issues, tokenCalls := s'.tokenCalls)
    && i < |s.tokenCalls| == |s'.tokenCalls| && s'.tokenCalls == s.tokenCalls[i := s'.tokenCalls[i]]
  }

  lemma {:induction false} TokenShapeFirst(c: Checks, s: State, i: nat)
    requires i < |s.tokenCalls|
    ensures var v := FindStep(c, s, i); TokenOnly(s, v, i) && v.idp == s.idp && !v.tokenCalls[i].pc.Storing?
    ensures s.tokenCalls[i].pc.Found? && CodeStore.IsLoad(s.codes.log, s.tokenCalls[i].redemption) ==>
      var v := TakeStep(s, i); TokenOnly(s, v, i) && v.idp == s.idp && !v.tokenCalls[i].pc.Storing?
    ensures s.tokenCalls[i].pc.Taken? ==>
      var v := CheckStep(c, s, i); TokenOnly(s, v, i) && v.idp == s.idp && !v.tokenCalls[i].pc.Storing?
    ensures s.tokenCalls[i].pc.Holding? ==>
      var v := ProveStep(c, s, i); TokenOnly(s, v, i) && v.idp == s.idp && !v.tokenCalls[i].pc.Storing?
  {
  }

  lemma {:induction false} TokenShapeLast(c: Checks, s: State, i: nat, text: string, readAt: int)
    requires i < |s.tokenCalls|
    ensures s.tokenCalls[i].pc.Admitted? ==>
      var v := IssueStep(c, s, i, text); TokenOnly(s, v, i) && v.idp == s.idp && !v.tokenCalls[i].pc.Storing?
    ensures s.tokenCalls[i].pc.Proved? ==> TokenOnly(s, LoadJtiStep(s, i, readAt), i)
    ensures s.tokenCalls[i].pc.Storing? && IsLoad(s.idp.log, s.tokenCalls[i].pc.load) ==> TokenOnly(s, StoreJtiStep(s, i), i)
  {
  }

  lemma {:induction false} TokenShape(c: Checks, s: State, i: nat, text: string, readAt: int)
    requires i < |s.tokenCalls|
    ensures TokenOnly(s, TokenNext(c, s, i, text, readAt), i)
    ensures !s.tokenCalls[i].pc.Proved? && !s.tokenCalls[i].pc.Storing? ==>
      var v := TokenNext(c, s, i, text, readAt); v.idp == s.idp && !v.tokenCalls[i].pc.Storing?
  {
    TokenShapeFirst(c, s, i);
    TokenShapeLast(c, s, i, text, readAt);
  }

  lemma {:induction false} ApiInvStep(c: Checks, s: State, a: Action)
    requires TokenInv(c, s) && ApiInv(c, s)
    ensures ApiInv(c, Next(c, s, a))
  {
    var s' := Next(c, s, a);
    TokenInvStep(c, s, a);
    if a.ApiStep? {
      if a.j < |s.apiCalls| {
        ApiShape(c, s, a.j, a.keyKnown, a.policy, a.readAt);
        ApiNextOk(c, s, a.j, a.keyKnown, a.policy, a.readAt);
        forall j | 0 <= j < |s'.apiCalls| && j != a.j ensures ApiOk(c, s', s'.apiCalls[j]) {
          ApiFrame(c, s, s', s.apiCalls[j]);
        }
      }
    } else {
      ApiUntouched(c, s, a);
      forall j | 0 <= j < |s.apiCalls| ensures ApiOk(c, s', s'.apiCalls[j]) {
        ApiFrame(c, s, s', s.apiCalls[j]);
      }
    }
  }

  lemma {:induction false} InvRun(c: Checks, start: int, actions: seq<Action>)
    ensures TokenInv(c, Run(c, Start(start), actions)) && ApiInv(c, Run(c, Start(start), actions))
  {
    if actions != [] {
      var s := Run(c, Start(start), actions[..|actions| - 1]);
      InvRun(c, start, actions[..|actions| - 1]);
      TokenInvStep(c, s, actions[|actions| - 1]);
      ApiInvStep(c, s, actions[|actions| - 1]);
    }
  }

  // ----- the replay cache of the gateway

  /** A call's load is the event it says, which was let through, and its store is still to come while it is writing. */
  predicate CallLoaded(cache: Cache, call: ApiCall) {
    call.evidence.Some? ==>
      var e := call.evidence.value;
      && IsLoad(cache.log, e.load) && Passes(cache.log, e.load) && (call.pc.Writing? ==> Waits(cache, e.load))
      && var l := cache.log[e.load]; l.jti == e.jti && l.until == l.now + JTI_TTL && e.at <= l.now <= l.at
  }

  ghost predicate GatewayInv(s: State) {
    && CacheOk(s.gateway, s.now)
    && (forall j :: 0 <= j < |s.apiCalls| ==> CallLoaded(s.gateway, s.apiCalls[j]))
    && (forall j, k :: 0 <= j < k < |s.apiCalls| ==> LoadsApart(s.apiCalls[j], s.apiCalls[k]))
  }

  predicate LoadsApart(a: ApiCall, b: ApiCall) {
    a.evidence.Some? && b.evidence.Some? ==> a.evidence.value.load != b.evidence.value.load
  }

  /** In a log that has grown a call's load means the same, unless its own store has come. */
  lemma {:induction false} StillLoaded(c: Cache, c': Cache, call: ApiCall)
    requires CallLoaded(c, call) && c.log <= c'.log
    requires call.evidence.Some? && call.pc.Writing? ==> forall m :: |c.log| <= m < |c'.log| ==> !StoreOf(c'.log, call.evidence.value.load, m)
    ensures CallLoaded(c', call)
  {
    Extends(c.log, c'.log);
    if call.evidence.Some? && call.pc.Writing? {
      var load := call.evidence.value.load;
      forall m | load < m < |c'.log| ensures !StoreOf(c'.log, load, m) {
        if m < |c.log| {
          assert !StoreOf(c.log, load, m);
        }
      }
    }
  }

  lemma {:induction false} ReplayKeeps(c: Checks, s: State, j: nat, readAt: int)
    requires GatewayInv(s) && j < |s.apiCalls| && s.apiCalls[j].pc.Shown? && s.apiCalls[j].pc.at <= readAt <= s.now
    requires s.apiCalls[j].evidence.None?
    ensures GatewayInv(ReplayStep(s, j, readAt))
  {
    var s', call := ReplayStep(s, j, readAt), s.apiCalls[j];
    LoadKeeps(s.gateway, call.pc.jti, readAt, JTI_TTL, s.now);
    ApiShapeFirst(c, s, j, readAt);
    forall k | 0 <= k < |s.apiCalls| && k != j ensures CallLoaded(s'.gateway, s'.apiCalls[k]) && LoadsApart(s'.apiCalls[k], s'.apiCalls[j]) {
      StillLoaded(s.gateway, s'.gateway, s.apiCalls[k]);
    }
    forall i, k | 0 <= i < k < |s.apiCalls| ensures LoadsApart(s'.apiCalls[i], s'.apiCalls[k]) {
      assert LoadsApart(s.apiCalls[i], s.apiCalls[k]);
    }
  }

  lemma {:induction false} WriteKeeps(s: State, j: nat)
    requires GatewayInv(s) && j < |s.apiCalls| && s.apiCalls[j].pc.Writing? && s.apiCalls[j].evidence.Some?
    ensures IsLoad(s.gateway.log, s.apiCalls[j].evidence.value.load) && GatewayInv(WriteStep(s, j))
  {
    assert CallLoaded(s.gateway, s.apiCalls[j]);
    var s', load := WriteStep(s, j), s.apiCalls[j].evidence.value.load;
    StoreKeeps(s.gateway, load, s.now);
    Extends(s.gateway.log, s'.gateway.log);
    forall k | 0 <= k < |s.apiCalls| && k != j ensures CallLoaded(s'.gateway, s'.apiCalls[k]) {
      assert if k < j then LoadsApart(s.apiCalls[k], s.apiCalls[j]) else LoadsApart(s.apiCalls[j], s.apiCalls[k]);
      StillLoaded(s.gateway, s'.gateway, s.apiCalls[k]);
    }
    forall i, k | 0 <= i < k < |s.apiCalls| ensures LoadsApart(s'.apiCalls[i], s'.apiCalls[k]) {
      assert LoadsApart(s.apiCalls[i], s.apiCalls[k]);
    }
  }

  /** Steps that leave the gateway's cache as it is, or sweep it. */
  lemma {:induction false} GatewayFrame(s: State, s': State)
    requires GatewayInv(s) && CacheOk(s'.gateway, s'.now) && s.gateway.log <= s'.gateway.log && |s.apiCalls| <= |s'.apiCalls|
    requires forall n :: |s.gateway.log| <= n < |s'.gateway.log| ==> !s'.gateway.log[n].Store?
    requires forall k :: 0 <= k < |s.apiCalls| ==>
      s'.apiCalls[k].evidence == s.apiCalls[k].evidence && (s'.apiCalls[k].pc.Writing? ==> s.apiCalls[k].pc.Writing?)
    requires forall k :: |s.apiCalls| <= k < |s'.apiCalls| ==> s'.apiCalls[k].evidence.None?
    ensures GatewayInv(s')
  {
    forall k | 0 <= k < |s'.apiCalls| ensures CallLoaded(s'.gateway, s'.apiCalls[k]) {
      if k < |s.apiCalls| {
        StillLoaded(s.gateway, s'.gateway, s.apiCalls[k]);
      }
    }
    forall i, k | 0 <= i < k < |s'.apiCalls| ensures LoadsApart(s'.apiCalls[i], s'.apiCalls[k]) {
      if k < |s.apiCalls| {
        assert LoadsApart(s.apiCalls[i], s.apiCalls[k]);
      }
    }
  }

  /** The other steps of the gateway. */
  lemma {:induction false} ApiQuiet(c: Checks, s: State, j: nat, keyKnown: bool, policy: Option<Gateway.PolicyReply>, readAt: int)
    requires j < |s.apiCalls| && !s.apiCalls[j].pc.Shown? && !s.apiCalls[j].pc.Writing?
    ensures QuietFor(s, ApiNext(c, s, j, keyKnown, policy, readAt), j)
  {
    match s.apiCalls[j].pc
    case Received => assert QuietFor(s, ShowStep(c, s, j), j);
    case Unreplayed =>
      if s.apiCalls[j].evidence.Some? {
        assert QuietFor(s, VerifyStep(c, s, j, keyKnown), j);
      }
    case Authenticated(_, _) => assert QuietFor(s, ServeStep(c, s, j, policy), j);
    case _ =>
  }

  /** The cache is left alone, and so is what call `j` has shown. */
  ghost predicate QuietFor(s: State, s': State, j: nat) {
    && s'.gateway == s.gateway && j < |s.apiCalls| == |s'.apiCalls|
    && s'.apiCalls[j].evidence == s.apiCalls[j].evidence && !s'.apiCalls[j].pc.Writing?
  }

  lemma {:induction false} GatewayApiStep(c: Checks, s: State, j: nat, keyKnown: bool, policy: Option<Gateway.PolicyReply>, readAt: int)
    requires GatewayInv(s) && j < |s.apiCalls| && ApiOk(c, s, s.apiCalls[j])
    ensures GatewayInv(ApiNext(c, s, j, keyKnown, policy, readAt))
  {
    ApiShape(c, s, j, keyKnown, policy, readAt);
    match s.apiCalls[j].pc
    case Shown(_, _, _, at) =>
      if at <= readAt <= s.now {
        ReplayKeeps(c, s, j, readAt);
      }
    case Writing => WriteKeeps(s, j);
    case _ =>
      ApiQuiet(c, s, j, keyKnown, policy, readAt);
      GatewayFrame(s, ApiNext(c, s, j, keyKnown, policy, readAt));
  }

  lemma {:induction false} GatewayCacheStep(c: Checks, s: State, a: Action)
    requires CacheOk(s.gateway, s.now) && !a.ApiStep?
    ensures var s' := Next(c, s, a);
      && s.now <= s'.now && CacheOk(s'.gateway, s'.now) && s.gateway.log <= s'.gateway.log
      && forall n :: |s.gateway.log| <= n < |s'.gateway.log| ==> !s'.gateway.log[n].Store?
  {
    match a
    case LookAtGatewayJti(key, readAt) =>
      if readAt <= s.now {
        LookKeeps(s.gateway, key, readAt, s.now);
      }
    case DropGatewayJti(look) => DeleteKeeps(s.gateway, look, s.now);
    case TokenStep(i, text, readAt) =>
      if i < |s.tokenCalls| {
        TokenShape(c, s, i, text, readAt);
      }
    case _ =>
  }

  lemma {:induction false} GatewayInvStep(c: Checks, s: State, a: Action)
    requires GatewayInv(s) && ApiInv(c, s)
    ensures GatewayInv(Next(c, s, a))
  {
    if a.ApiStep? {
      if a.j < |s.apiCalls| {
        GatewayApiStep(c, s, a.j, a.keyKnown, a.policy, a.readAt);
      }
    } else {
      ApiUntouched(c, s, a);
      GatewayCacheStep(c, s, a);
      GatewayFrame(s, Next(c, s, a));
    }
  }

  lemma {:induction false} GatewayInvRun(c: Checks, start: int, actions: seq<Action>)
    ensures GatewayInv(Run(c, Start(start), actions))
  {
    if actions != [] {
      var before := actions[..|actions| - 1];
      GatewayInvRun(c, start, before);
      InvRun(c, start, before);
      GatewayInvStep(c, Run(c, Start(start), before), actions[|actions| - 1]);
    }
  }

  // ----- and that of the IdP

  predicate TokenWaits(cache: Cache, call: TokenCall) {
    call.pc.Storing? ==> Waits(cache, call.pc.load)
  }

  predicate StoresApart(a: TokenCall, b: TokenCall) {
    a.pc.Storing? && b.pc.Storing? ==> a.pc.load != b.pc.load
  }

  /** Every call that is storing has yet to do so, for a load of its own. */
  ghost predicate IdpInv(s: State) {
    && CacheOk(s.idp, s.now)
    && (forall i :: 0 <= i < |s.tokenCalls| ==> TokenWaits(s.idp, s.tokenCalls[i]))
    && (forall i, j :: 0 <= i < j < |s.tokenCalls| ==> StoresApart(s.tokenCalls[i], s.tokenCalls[j]))
  }

  lemma {:induction false} StillWaits(c: Cache, c': Cache, call: TokenCall)
    requires TokenWaits(c, call) && c.log <= c'.log
    requires call.pc.Storing? ==> forall m :: |c.log| <= m < |c'.log| ==> !StoreOf(c'.log, call.pc.load, m)
    ensures TokenWaits(c', call)
  {
    Extends(c.log, c'.log);
    if call.pc.Storing? {
      forall m | call.pc.load < m < |c'.log| ensures !StoreOf(c'.log, call.pc.load, m) {
        if m < |c.log| {
          assert !StoreOf(c.log, call.pc.load, m);
        }
      }
    }
  }

  /** A step of call `i` that logs no store of another call. */
  lemma {:induction false} IdpFrame(s: State, s': State, i: nat)
    requires IdpInv(s) && CacheOk(s'.idp, s'.now) && s.idp.log <= s'.idp.log
    requires |s.tokenCalls| <= |s'.tokenCalls| && forall k :: 0 <= k < |s.tokenCalls| && k != i ==> s'.tokenCalls[k] == s.tokenCalls[k]
    requires forall k :: |s.tokenCalls| <= k < |s'.tokenCalls| ==> !s'.tokenCalls[k].pc.Storing?
    requires i < |s.tokenCalls| ==> TokenWaits(s'.idp, s'.tokenCalls[i])
    requires i < |s.tokenCalls| && s'.tokenCalls[i].pc.Storing? ==> s'.tokenCalls[i] == s.tokenCalls[i] || s'.tokenCalls[i].pc.load == |s.idp.log|
    requires forall m, k ::
      (|s.idp.log| <= m < |s'.idp.log| && 0 <= k < |s.tokenCalls| && k != i && s.tokenCalls[k].pc.Storing?)
      ==> !StoreOf(s'.idp.log, s.tokenCalls[k].pc.load, m)
    ensures IdpInv(s')
  {
    forall k | 0 <= k < |s'.tokenCalls| ensures TokenWaits(s'.idp, s'.tokenCalls[k]) {
      if k < |s.tokenCalls| && k != i {
        StillWaits(s.idp, s'.idp, s.tokenCalls[k]);
      }
    }
    forall k, m | 0 <= k < m < |s'.tokenCalls| ensures StoresApart(s'.tokenCalls[k], s'.tokenCalls[m]) {
      if m < |s.tokenCalls| {
        assert StoresApart(s.tokenCalls[k], s.tokenCalls[m]);
        assert TokenWaits(s.idp, s.tokenCalls[k]) && TokenWaits(s.idp, s.tokenCalls[m]);
      }
    }
  }

  lemma {:induction false} IdpLoads(c: Checks, s: State, i: nat, readAt: int)
    requires IdpInv(s) && i < |s.tokenCalls| && s.tokenCalls[i].pc.Proved? && readAt <= s.now
    ensures IdpInv(LoadJtiStep(s, i, readAt))
  {
    LoadKeeps(s.idp, s.tokenCalls[i].pc.key.jti, readAt, JTI_TTL, s.now);
    IdpFrame(s, LoadJtiStep(s, i, readAt), i);
  }

  lemma {:induction false} IdpStores(c: Checks, s: State, i: nat)
    requires IdpInv(s) && i < |s.tokenCalls| && s.tokenCalls[i].pc.Storing?
    ensures IsLoad(s.idp.log, s.tokenCalls[i].pc.load) && IdpInv(StoreJtiStep(s, i))
  {
    var load := s.tokenCalls[i].pc.load;
    assert TokenWaits(s.idp, s.tokenCalls[i]);
    StoreKeeps(s.idp, load, s.now);
    forall k | 0 <= k < |s.tokenCalls| && k != i && s.tokenCalls[k].pc.Storing? ensures s.tokenCalls[k].pc.load != load {
      assert if k < i then StoresApart(s.tokenCalls[k], s.tokenCalls[i]) else StoresApart(s.tokenCalls[i], s.tokenCalls[k]);
    }
    IdpFrame(s, StoreJtiStep(s, i), i);
  }

  lemma {:induction false} IdpTokenStep(c: Checks, s: State, i: nat, text: string, readAt: int)
    requires IdpInv(s) && i < |s.tokenCalls|
    ensures IdpInv(TokenNext(c, s, i, text, readAt))
  {
    match s.tokenCalls[i].pc
    case Proved(_, key) =>
      if key.at <= readAt <= s.now {
        IdpLoads(c, s, i, readAt);
      }
    case Storing(_, _, _) => IdpStores(c, s, i);
    case _ =>
      TokenShape(c, s, i, text, readAt);
      IdpFrame(s, TokenNext(c, s, i, text, readAt), i);
  }

  lemma {:induction false} IdpSwept(c: Checks, s: State, key: string, readAt: int, look: nat)
    requires IdpInv(s)
    ensures IdpInv(Next(c, s, LookAtIdpJti(key, readAt))) && IdpInv(Next(c, s, DropIdpJti(look)))
  {
    if readAt <= s.now {
      LookKeeps(s.idp, key, readAt, s.now);
      IdpFrame(s, Next(c, s, LookAtIdpJti(key, readAt)), |s.tokenCalls|);
    }
    DeleteKeeps(s.idp, look, s.now);
    IdpFrame(s, Next(c, s, DropIdpJti(look)), |s.tokenCalls|);
  }

  lemma {:induction false} IdpInvStep(c: Checks, s: State, a: Action)
    requires IdpInv(s)
    ensures IdpInv(Next(c, s, a))
  {
    if a.TokenStep? {
      if a.i < |s.tokenCalls| {
        IdpTokenStep(c, s, a.i, a.text, a.readAt);
      }
    } else if a.ApiStep? {
      if a.j < |s.apiCalls| {
        ApiShape(c, s, a.j, a.keyKnown, a.policy, a.readAt);
      }
    } else if a.LookAtIdpJti? {
      IdpSwept(c, s, a.key, a.readAt, 0);
    } else if a.DropIdpJti? {
      IdpSwept(c, s, "", 0, a.look);
    } else {
      IdpFrame(s, Next(c, s, a), |s.tokenCalls|);
    }
  }

  lemma {:induction false} IdpInvRun(c: Checks, start: int, actions: seq<Action>)
    ensures IdpInv(Run(c, Start(start), actions))
  {
    if actions != [] {
      IdpInvRun(c, start, actions[..|actions| - 1]);
      IdpInvStep(c, Run(c, Start(start), actions[..|actions| - 1]), actions[|actions| - 1]);
    }
  }

  // ----- the code store of the IdP

  /** The call has loaded its code and found it. */
  predicate HasFound(pc: TokenPc) {
    pc.Found? || pc.Taken? || Past(pc)
  }

  /** A call's redemption is the load it says, which found its code; it deletes the code once, before it goes on. */
  ghost predicate RedemptionOk(codes: CodeStore.Codes, call: TokenCall) {
    HasFound(call.pc) ==>
      && CodeStore.Finds(codes.log, call.redemption) && codes.log[call.redemption].code == call.form.code
      && if call.pc.Found? then CodeStore.Waits(codes, call.redemption) else exists p :: CodeStore.RemovedBy(codes.log, call.redemption, p)
  }

  predicate RedemptionsApart(a: TokenCall, b: TokenCall) {
    HasFound(a.pc) && HasFound(b.pc) ==> a.redemption != b.redemption
  }

  ghost predicate CodesInv(s: State) {
    && CodeStore.CodesOk(s.codes, s.now)
    && (forall p :: 0 <= p < |s.codes.log| && s.codes.log[p].Saved? ==> s.codes.log[p].code in s.grants)
    && (forall i :: 0 <= i < |s.tokenCalls| ==> RedemptionOk(s.codes, s.tokenCalls[i]))
    && (forall i, j :: 0 <= i < j < |s.tokenCalls| ==> RedemptionsApart(s.tokenCalls[i], s.tokenCalls[j]))
  }

  lemma {:induction false} StillRedeemed(c: CodeStore.Codes, c': CodeStore.Codes, call: TokenCall)
    requires RedemptionOk(c, call) && c.log <= c'.log
    requires call.pc.Found? ==> forall m :: |c.log| <= m < |c'.log| ==> !CodeStore.RemovedBy(c'.log, call.redemption, m)
    ensures RedemptionOk(c', call)
  {
    CodeStore.Extends(c.log, c'.log);
    if call.pc.Found? {
      forall m | call.redemption < m < |c'.log| ensures !CodeStore.RemovedBy(c'.log, call.redemption, m) {
        if m < |c.log| {
          assert !CodeStore.RemovedBy(c.log, call.redemption, m);
        }
      }
    } else if HasFound(call.pc) {
      var p :| CodeStore.RemovedBy(c.log, call.redemption, p);
      assert CodeStore.RemovedBy(c'.log, call.redemption, p);
    }
  }

  /** What the log of the code store may have grown by, in a step of call `i`. */
  ghost predicate CodesGrow(s: State, s': State, i: nat) {
    && CodeStore.CodesOk(s'.codes, s'.now) && s.codes.log <= s'.codes.log && (forall k :: k in s.grants ==> k in s'.grants)
    && (forall p :: |s.codes.log| <= p < |s'.codes.log| && s'.codes.log[p].Saved? ==> s'.codes.log[p].code in s'.grants)
    && forall m, k ::
         (|s.codes.log| <= m < |s'.codes.log| && 0 <= k < |s.tokenCalls| && k != i && s.tokenCalls[k].pc.Found?)
         ==> !CodeStore.RemovedBy(s'.codes.log, s.tokenCalls[k].redemption, m)
  }

  lemma {:induction false} CodesFrame(s: State, s': State, i: nat)
    requires CodesInv(s) && CodesGrow(s, s', i)
    requires |s.tokenCalls| <= |s'.tokenCalls| && forall k :: 0 <= k < |s.tokenCalls| && k != i ==> s'.tokenCalls[k] == s.tokenCalls[k]
    requires forall k :: |s.tokenCalls| <= k < |s'.tokenCalls| ==> s'.tokenCalls[k].pc.Arrived?
    requires i < |s.tokenCalls| ==> RedemptionOk(s'.codes, s'.tokenCalls[i])
    requires i < |s.tokenCalls| && HasFound(s'.tokenCalls[i].pc) ==>
      || s'.tokenCalls[i].redemption == |s.codes.log|
      || (HasFound(s.tokenCalls[i].pc) && s'.tokenCalls[i].redemption == s.tokenCalls[i].redemption)
    ensures CodesInv(s')
  {
    forall k | 0 <= k < |s'.tokenCalls| ensures RedemptionOk(s'.codes, s'.tokenCalls[k]) {
      if k < |s.tokenCalls| && k != i {
        StillRedeemed(s.codes, s'.codes, s.tokenCalls[k]);
      }
    }
    forall k, m | 0 <= k < m < |s'.tokenCalls| ensures RedemptionsApart(s'.tokenCalls[k], s'.tokenCalls[m]) {
      if m < |s.tokenCalls| {
        assert RedemptionsApart(s.tokenCalls[k], s.tokenCalls[m]);
        assert RedemptionOk(s.codes, s.tokenCalls[k]) && RedemptionOk(s.codes, s.tokenCalls[m]);
      }
    }
  }

  lemma {:induction false} CodesFound(c: Checks, s: State, i: nat)
    requires CodesInv(s) && i < |s.tokenCalls| && s.tokenCalls[i].pc.Arrived?
    ensures CodesInv(FindStep(c, s, i))
  {
    CodeStore.LoadKeeps(s.codes, s.tokenCalls[i].form.code, s.now);
    CodesFrame(s, FindStep(c, s, i), i);
  }

  lemma {:induction false} CodesTaken(c: Checks, s: State, i: nat)
    requires CodesInv(s) && i < |s.tokenCalls| && s.tokenCalls[i].pc.Found?
    ensures CodeStore.IsLoad(s.codes.log, s.tokenCalls[i].redemption) && CodesInv(TakeStep(s, i))
  {
    var l, s' := s.tokenCalls[i].redemption, TakeStep(s, i);
    assert RedemptionOk(s.codes, s.tokenCalls[i]);
    CodeStore.RemoveKeeps(s.codes, l, s.now);
    CodeStore.Extends(s.codes.log, s'.codes.log);
    assert CodeStore.RemovedBy(s'.codes.log, l, |s.codes.log|);
    forall k | 0 <= k < |s.tokenCalls| && k != i && s.tokenCalls[k].pc.Found? ensures s.tokenCalls[k].redemption != l {
      assert if k < i then RedemptionsApart(s.tokenCalls[k], s.tokenCalls[i]) else RedemptionsApart(s.tokenCalls[i], s.tokenCalls[k]);
    }
    CodesFrame(s, s', i);
  }

  /** Call `i` goes on, and leaves the code store alone. */
  predicate LeavesCodes(s: State, s': State, i: nat) {
    && s'.codes == s.codes && s'.now == s.now && s'.grants == s.grants && i < |s.tokenCalls| == |s'.tokenCalls|
    && s'.tokenCalls[i].redemption == s.tokenCalls[i].redemption && s'.tokenCalls[i].form == s.tokenCalls[i].form
    && !s'.tokenCalls[i].pc.Found? && (HasFound(s'.tokenCalls[i].pc) ==> HasFound(s.tokenCalls[i].pc))
  }

  lemma {:induction false} CodesLater(c: Checks, s: State, i: nat, text: string, readAt: int)
    requires i < |s.tokenCalls|
    ensures s.tokenCalls[i].pc.Taken? ==> LeavesCodes(s, CheckStep(c, s, i), i)
    ensures s.tokenCalls[i].pc.Holding? ==> LeavesCodes(s, ProveStep(c, s, i), i)
    ensures s.tokenCalls[i].pc.Proved? ==> LeavesCodes(s, LoadJtiStep(s, i, readAt), i)
    ensures s.tokenCalls[i].pc.Storing? && IsLoad(s.idp.log, s.tokenCalls[i].pc.load) ==> LeavesCodes(s, StoreJtiStep(s, i), i)
    ensures s.tokenCalls[i].pc.Admitted? ==> LeavesCodes(s, IssueStep(c, s, i, text), i)
  {
  }

  lemma {:induction false} CodesLeft(c: Checks, s: State, i: nat, text: string, readAt: int)
    requires i < |s.tokenCalls| && !s.tokenCalls[i].pc.Arrived? && !s.tokenCalls[i].pc.Found?
    ensures LeavesCodes(s, TokenNext(c, s, i, text, readAt), i)
  {
    CodesLater(c, s, i, text, readAt);
  }

  lemma {:induction false} CodesTokenStep(c: Checks, s: State, i: nat, text: string, readAt: int)
    requires CodesInv(s) && i < |s.tokenCalls|
    ensures CodesInv(TokenNext(c, s, i, text, readAt))
  {
    match s.tokenCalls[i].pc
    case Arrived => CodesFound(c, s, i);
    case Found(_) => CodesTaken(c, s, i);
    case _ =>
      TokenShape(c, s, i, text, readAt);
      CodesLeft(c, s, i, text, readAt);
      assert RedemptionOk(s.codes, s.tokenCalls[i]);
      CodesFrame(s, TokenNext(c, s, i, text, readAt), i);
  }

  lemma {:induction false} CodesInvStep(c: Checks, s: State, a: Action)
    requires CodesInv(s)
    ensures CodesInv(Next(c, s, a))
  {
    match a
    case TokenStep(i, text, readAt) =>
      if i < |s.tokenCalls| {
        CodesTokenStep(c, s, i, text, readAt);
      }
    case ApiStep(j, keyKnown, policy, readAt) =>
      if j < |s.apiCalls| {
        ApiShape(c, s, j, keyKnown, policy, readAt);
      }
    case _ => CodesOtherStep(c, s, a);
  }

  lemma {:induction false} CodesSaved(c: Checks, s: State, q: AuthorizeQuery, code: string)
    requires CodesInv(s)
    ensures CodesInv(Next(c, s, Authorize(q, code)))
  {
    if c.authorize(q).None? && code !in s.grants {
      CodeStore.SaveKeeps(s.codes, code, CodeInfo(q.codeChallenge, q.clientId, s.now + CODE_TTL), s.now);
      CodesFrame(s, Next(c, s, Authorize(q, code)), |s.tokenCalls|);
    }
  }

  lemma {:induction false} CodesLooked(c: Checks, s: State, key: string, readAt: int)
    requires CodesInv(s)
    ensures CodesInv(Next(c, s, LookAtCode(key, readAt)))
  {
    if readAt <= s.now {
      CodeStore.LookKeeps(s.codes, key, readAt, s.now);
      CodesFrame(s, Next(c, s, LookAtCode(key, readAt)), |s.tokenCalls|);
    }
  }

  lemma {:induction false} CodesSwept(c: Checks, s: State, look: nat)
    requires CodesInv(s)
    ensures CodesInv(Next(c, s, DropCode(look)))
  {
    CodeStore.SweepKeeps(s.codes, look, s.now);
    CodesFrame(s, Next(c, s, DropCode(look)), |s.tokenCalls|);
  }

  lemma {:induction false} CodesOtherStep(c: Checks, s: State, a: Action)
    requires CodesInv(s) && !a.TokenStep? && !a.ApiStep?
    ensures CodesInv(Next(c, s, a))
  {
    if a.Authorize? {
      CodesSaved(c, s, a.q, a.code);
    } else if a.LookAtCode? {
      CodesLooked(c, s, a.key, a.readAt);
    } else if a.DropCode? {
      CodesSwept(c, s, a.look);
    } else {
      CodesFrame(s, Next(c, s, a), |s.tokenCalls|);
    }
  }

  lemma {:induction false} CodesInvRun(c: Checks, start: int, actions: seq<Action>)
    ensures CodesInv(Run(c, Start(start), actions))
  {
    if actions != [] {
      CodesInvRun(c, start, actions[..|actions| - 1]);
      CodesInvStep(c, Run(c, Start(start), actions[..|actions| - 1]), actions[|actions| - 1]);
    }
  }

  /** So in every run all three stores are what their logs say, and every store or delete that a call is about to make can be made. */
  lemma {:induction false} StoresOkRun(c: Checks, start: int, actions: seq<Action>)
    ensures var s := Run(c, Start(start), actions); IdpInv(s) && GatewayInv(s) && CodesInv(s)
  {
    GatewayInvRun(c, start, actions);
    IdpInvRun(c, start, actions);
    CodesInvRun(c, start, actions);
  }

  // ----- the checks of the code

  /** A check that passes a value on, as one that only refuses. */
  function Refusal<T>(r: Gateway.Checked<T>): Option<Gateway.Status> {
    if r.Stopped? then Some(r.status) else None
  }

  function RealChecks(h: Hash, enforceZiti: bool, failOpen: bool): Checks {
    Checks(
      q => CheckAuthorize(q),
      form => CheckForm(form),
      (form, challenge, client) => RefusedCode(h, form, challenge, client),
      (form, now) => Idp.CheckProof(h, form, now),
      (client, jkt, now) => ClaimsFor(client, jkt, now),
      (req, now) => Gateway.CheckProof(h, req, now),
      (claims, jkt, now) => Refusal(Gateway.CheckToken(Some(claims), jkt, now)),
      (req: Gateway.ApiRequest, claims) => Refusal(Gateway.CheckIdentity(enforceZiti, req.identity, claims)),
      reply => Refusal(Gateway.Decide(reply, failOpen)),
      (req, claims) => Gateway.Handled(req, claims))
  }

  function RefusedCode(h: Hash, form: TokenForm, challenge: string, client: string): Option<IdpError> {
    match CheckCode(h, form, Some((challenge, client)))
    case Rejected(error) => Some(error)
    case Redeemed(_, _) => None
  }

  // ----- what the checks of the code give

  /** The key that signed a proof. */
  function KeyOf(header: ProofHeader): Result<PublicKey> {
    if header.Signed? then Ok(header.sp.signer) else Err("no proof")
  }

  predicate Reads(header: ProofHeader) {
    header.Signed? && header.sp.proof.jwk.Some? && ToPublicKey(header.sp.proof.jwk.value) == Ok(header.sp.signer)
  }

  /** The proof of a token request is for this endpoint and this minute; a query in either URI does not matter. */
  ghost predicate EarnerFits(form: TokenForm, at: int)
    requires form.header.Signed?
  {
    var p := form.header.sp.proof;
    && p.alg == "ES256" && EqualFold(p.htm, "POST")
    && (forall claimed, called :: BaseOf(p.htu, claimed) && BaseOf(form.uri, called) ==> EqualFold(claimed, called))
    && p.iat.Some? && -60 * SECOND <= at - p.iat.value * SECOND <= 60 * SECOND
    && (p.exp.Some? ==> at < p.exp.value * SECOND) && (p.nbf.Some? ==> p.nbf.value * SECOND <= at)
  }

  lemma {:induction false} IdpProofMeans(h: Hash, form: TokenForm, now: int)
    requires Idp.CheckProof(h, form, now).Ok?
    ensures Reads(form.header) && EarnerFits(form, now)
    ensures Idp.CheckProof(h, form, now).value.0 == IdpThumbprint(h, form.header.sp.proof.jwk.value)
  {
    ProofShows(h, form, now);
    var htu := form.header.sp.proof.htu;
    forall claimed, called | BaseOf(htu, claimed) && BaseOf(form.uri, called) ensures EqualFold(claimed, called) {
      IdpAcceptsIff(h, form.header.sp, "POST", form.uri, "", now, claimed, called);
    }
    HasBase(htu);
    HasBase(form.uri);
    IdpAcceptsIff(h, form.header.sp, "POST", form.uri, "", now, BeforeQuery(htu), BeforeQuery(form.uri));
  }

  /** The proof is for this very method, path, token and minute. */
  predicate ProofFits(h: Hash, req: Gateway.ApiRequest, token: string, at: int)
    requires req.header.Signed?
  {
    var p := req.header.sp.proof;
    && p.alg in {"ES256", "ES384", "ES512"} && EqualFold(p.htm, req.method_)
    && ('/' !in req.host && (req.path == "" || req.path[0] == '/') ==> StripHostAndScheme(p.htu) == if req.path == "" then "/" else req.path)
    && p.iat.Some? && -60 * SECOND <= at - p.iat.value * SECOND <= 60 * SECOND && p.jti != ""
    && (p.exp.Some? ==> at < p.exp.value * SECOND) && (p.nbf.Some? ==> p.nbf.value * SECOND <= at)
    && (token != "" ==> p.ath == h.digest(token))
  }

  lemma {:induction false} GatewayVerifyMeans(h: Hash, sp: SignedProof, method_: string, target: string, token: string, now: int)
    requires GatewayVerify(h, sp, method_, target, token, now).Ok?
    ensures var p := sp.proof;
      && p.alg in {"ES256", "ES384", "ES512"} && p.jwk.Some? && ToPublicKey(p.jwk.value) == Ok(sp.signer)
      && EqualFold(p.htm, method_) && StripHostAndScheme(p.htu) == StripHostAndScheme(target)
      && p.iat.Some? && -60 * SECOND <= now - p.iat.value * SECOND <= 60 * SECOND && p.jti != ""
      && (p.exp.Some? ==> now < p.exp.value * SECOND) && (p.nbf.Some? ==> p.nbf.value * SECOND <= now)
      && (token != "" ==> p.ath == h.digest(token))
  {
  }

  lemma {:induction false} ApiProofMeans(h: Hash, req: Gateway.ApiRequest, now: int)
    requires Gateway.CheckProof(h, req, now).Passed?
    ensures Reads(req.header) && ProofFits(h, req, Gateway.CheckProof(h, req, now).value.2, now)
    ensures var (jkt, jti, token), a := Gateway.CheckProof(h, req, now).value, req.authorization;
      && |a| >= 5 && EqualFold(a[..4], "DPoP") && a[4] == ' ' && token == a[5..]
      && jkt == GatewayThumbprint(h, req.header.sp.proof.jwk.value.x, req.header.sp.proof.jwk.value.y)
      && jti == req.header.sp.proof.jti
  {
    Gateway.ProvedIff(h, req, now);
    GatewayVerifyMeans(h, req.header.sp, req.method_, Gateway.FullUri(req), req.authorization[5..], now);
    if '/' !in req.host && (req.path == "" || req.path[0] == '/') {
      Gateway.UriHoldsPath(req);
    }
  }

  /** The token request was the client's: its secret, and the verifier of the challenge it had announced. */
  predicate ByClient(h: Hash, form: TokenForm, q: AuthorizeQuery) {
    && q.responseType == "code" && q.redirectUri != "" && q.codeChallengeMethod == "S256"
    && form.isPost && form.grantType == "authorization_code"
    && Registered(q.clientId) && SecretOf(q.clientId) == Some(form.clientSecret)
    && form.codeVerifier != "" && h.digest(form.codeVerifier) == q.codeChallenge
  }

  lemma {:induction false} CodeMeans(h: Hash, form: TokenForm, q: AuthorizeQuery)
    requires CheckAuthorize(q).None? && CheckForm(form).None? && RefusedCode(h, form, q.codeChallenge, q.clientId).None?
    ensures ByClient(h, form, q)
  {
    CheckAuthorizeIff(q);
    CheckFormIff(form);
    CheckCodeIff(h, form, q.codeChallenge, q.clientId);
  }

  /** One key signed both proofs, or here is a collision of SHA-256. */
  ghost predicate SameKey(h: Hash, a: ProofHeader, b: ProofHeader)
    requires Reads(a) && Reads(b)
  {
    || KeyOf(a) == KeyOf(b)
    || Collision(h, MarshalledText(a.sp.proof.jwk.value), CanonicalText(b.sp.proof.jwk.value.x, b.sp.proof.jwk.value.y))
  }

  /** The token of a served request, the call that earned it and the authorization that call redeemed. */
  predicate HasOrigin(s: State, call: ApiCall) {
    && call.pc.Serving? && call.evidence.Some? && call.evidence.value.token in s.issues
    && var issue := s.issues[call.evidence.value.token];
       issue.call < |s.tokenCalls| && s.tokenCalls[issue.call].form.code in s.grants
  }

  function IssueOf(s: State, call: ApiCall): Issue
    requires HasOrigin(s, call)
  {
    s.issues[call.evidence.value.token]
  }

  function FormOf(s: State, call: ApiCall): TokenForm
    requires HasOrigin(s, call)
  {
    s.tokenCalls[IssueOf(s, call).call].form
  }

  function GrantOf(s: State, call: ApiCall): Grant
    requires HasOrigin(s, call)
  {
    s.grants[FormOf(s, call).code]
  }

  /** Generic part: what holds of the trace whatever the checks are. */
  lemma {:induction false} Origin(c: Checks, s: State, j: nat)
    requires TokenInv(c, s) && ApiInv(c, s) && j < |s.apiCalls| && s.apiCalls[j].pc.Serving?
    ensures var call := s.apiCalls[j];
      && HasOrigin(s, call)
      && var issue, form, g, e := IssueOf(s, call), FormOf(s, call), GrantOf(s, call), call.evidence.value;
         && c.authorize(g.q).None? && Redeems(c, form, g) && Binds(c, form, issue.key, issue.at) && InTime(g, issue.redeemedAt, issue.at)
         && call.pc.claims == issue.claims == c.claims(g.q.clientId, issue.key.jkt, issue.at)
         && EvidenceOk(c, call.req, e, s.now) && BearsToken(c, s, call.req, e, issue.claims, call.pc.at)
         && c.policy(call.pc.policy).None? && c.handler(call.req, issue.claims) == Gateway.Passed(call.pc.request)
  {
    var call := s.apiCalls[j];
    assert ApiOk(c, s, call);
    var t := call.evidence.value.token;
    assert Traced(c, s, t);
    assert TokenOk(c, s, s.tokenCalls[s.issues[t].call]);
  }

  lemma {:induction false} TokenMeans(claims: Claims, jkt: string, at: int)
    requires Refusal(Gateway.CheckToken(Some(claims), jkt, at)).None?
    ensures claims.jkt == jkt && at < claims.exp * SECOND
  {
  }

  /** What the call asks of the database is what its path and body say, in the name of its claims. */
  predicate Asks(call: ApiCall)
    requires call.pc.Serving?
  {
    var req, claims := call.req, call.pc.claims;
    match call.pc.request
    case Transfer(tenant, amount, description, sub) =>
      req.path == "/api/transfer" && req.body == Some((amount, description)) && amount > 0.0 && tenant == claims.tenantId && sub == claims.sub
    case Balance(tenant, sub) => req.path == "/api/balance" && tenant == claims.tenantId && sub == claims.sub
    case Logs(tenant) => req.path == "/api/audit-logs" && tenant == claims.tenantId
  }

  /**
   * A served call and its origin agree: the token was issued less than 60 s before it was checked, to the
   * client whose secret and code verifier had been presented for a code no older than five minutes, with
   * a proof for the token endpoint; it carries that client's tenant and role; the call's proof is for this
   * request and token and is signed by the key that the token was issued to; the network identity, if there
   * is one, is the client; the policy has let the call through; and it asks for what the request says.
   */
  ghost predicate Agrees(h: Hash, enforceZiti: bool, failOpen: bool, s: State, call: ApiCall) {
    && HasOrigin(s, call)
    && var issue, form, g, e := IssueOf(s, call), FormOf(s, call), GrantOf(s, call), call.evidence.value;
       && call.pc.claims.sub == g.q.clientId && call.pc.claims.tenantId == TenantOf(g.q.clientId) && call.pc.claims.role == RoleOf(g.q.clientId)
       && ByClient(h, form, g.q) && g.at <= issue.redeemedAt <= g.at + 300 * SECOND && issue.redeemedAt <= issue.at
       && issue.at <= call.pc.at < issue.at + 60 * SECOND
       && Reads(form.header) && EarnerFits(form, issue.key.at) && issue.key.at <= issue.at
       && Reads(call.req.header) && |call.req.authorization| >= 5 && call.req.authorization[5..] == e.token
       && SameKey(h, form.header, call.req.header) && ProofFits(h, call.req, e.token, e.at) && e.at <= call.pc.at
       && (call.req.identity == g.q.clientId || (call.req.identity == "" && !enforceZiti))
       && (if call.pc.policy.Some? then call.pc.policy.value.allow else failOpen)
       && Asks(call)
  }

  /** The requests that the gateway serves, in every run, agree with their origin. */
  lemma {:induction false} ServedRequestsAgree(h: Hash, enforceZiti: bool, failOpen: bool, start: int, actions: seq<Action>, j: nat)
    requires var s := Run(RealChecks(h, enforceZiti, failOpen), Start(start), actions); j < |s.apiCalls| && s.apiCalls[j].pc.Serving?
    ensures var s := Run(RealChecks(h, enforceZiti, failOpen), Start(start), actions); Agrees(h, enforceZiti, failOpen, s, s.apiCalls[j])
  {
    InvRun(RealChecks(h, enforceZiti, failOpen), start, actions);
    ServedAgrees(h, enforceZiti, failOpen, Run(RealChecks(h, enforceZiti, failOpen), Start(start), actions), j);
  }

  lemma {:induction false} EarnerMeans(h: Hash, enforceZiti: bool, failOpen: bool, form: TokenForm, g: Grant, key: KeyProof, at: int)
    requires var c := RealChecks(h, enforceZiti, failOpen); c.authorize(g.q).None? && Redeems(c, form, g) && Binds(c, form, key, at)
    ensures ByClient(h, form, g.q) && Reads(form.header) && EarnerFits(form, key.at) && key.at <= at
    ensures key.jkt == IdpThumbprint(h, form.header.sp.proof.jwk.value)
  {
    CodeMeans(h, form, g.q);
    IdpProofMeans(h, form, key.at);
  }

  lemma {:induction false} BearerMeans(h: Hash, enforceZiti: bool, failOpen: bool, s: State, call: ApiCall)
    requires call.pc.Serving? && call.evidence.Some?
    requires var c, e := RealChecks(h, enforceZiti, failOpen), call.evidence.value;
      EvidenceOk(c, call.req, e, s.now) && BearsToken(c, s, call.req, e, call.pc.claims, call.pc.at)
    ensures var e := call.evidence.value;
      && Reads(call.req.header) && ProofFits(h, call.req, e.token, e.at) && e.at <= call.pc.at
      && |call.req.authorization| >= 5 && call.req.authorization[5..] == e.token
      && call.pc.claims.jkt == e.jkt == GatewayThumbprint(h, call.req.header.sp.proof.jwk.value.x, call.req.header.sp.proof.jwk.value.y)
      && call.pc.at < call.pc.claims.exp * SECOND
      && (call.req.identity == call.pc.claims.sub || (call.req.identity == "" && !enforceZiti))
  {
    ApiProofMeans(h, call.req, call.evidence.value.at);
    TokenMeans(call.pc.claims, call.evidence.value.jkt, call.pc.at);
  }

  lemma {:induction false} ServedAgrees(h: Hash, enforceZiti: bool, failOpen: bool, s: State, j: nat)
    requires TokenInv(RealChecks(h, enforceZiti, failOpen), s) && ApiInv(RealChecks(h, enforceZiti, failOpen), s)
    requires j < |s.apiCalls| && s.apiCalls[j].pc.Serving?
    ensures Agrees(h, enforceZiti, failOpen, s, s.apiCalls[j])
  {
    var call := s.apiCalls[j];
    Origin(RealChecks(h, enforceZiti, failOpen), s, j);
    var issue, form, g := IssueOf(s, call), FormOf(s, call), GrantOf(s, call);
    EarnerMeans(h, enforceZiti, failOpen, form, g, issue.key, issue.at);
    BearerMeans(h, enforceZiti, failOpen, s, call);
    TokenLifetime(g.q.clientId, issue.key.jkt, issue.at, call.pc.at);
    Gateway.HandledIff(call.req, call.pc.claims, call.pc.request);
    KeyBinding.EqualThumbprintsOneKey(h, form.header.sp.proof.jwk.value, call.req.header.sp.proof.jwk.value);
  }

  /** The call that earned a token. */
  predicate Earned(s: State, t: string) {
    t in s.issues && s.issues[t].call < |s.tokenCalls|
  }

  function EarnerOf(s: State, t: string): TokenCall
    requires Earned(s, t)
  {
    s.tokenCalls[s.issues[t].call]
  }

  /**
   * Different tokens go back to different authorizations, unless the two calls that earned them overlapped:
   * both had loaded the code before either deleted it.
   */
  lemma {:induction false} TokensHaveOwnGrants(c: Checks, start: int, actions: seq<Action>, t: string, t': string)
    requires var s := Run(c, Start(start), actions); t in s.issues && t' in s.issues && t != t'
    ensures var s := Run(c, Start(start), actions);
      && Earned(s, t) && Earned(s, t') && s.issues[t].call != s.issues[t'].call
      && (EarnerOf(s, t).form.code != EarnerOf(s, t').form.code
          || CodeStore.Together(s.codes.log, EarnerOf(s, t).redemption, EarnerOf(s, t').redemption))
  {
    var s := Run(c, Start(start), actions);
    InvRun(c, start, actions);
    CodesInvRun(c, start, actions);
    assert Traced(c, s, t) && Traced(c, s, t');
    assert EarnerOf(s, t).pc == Ended(t) && EarnerOf(s, t').pc == Ended(t');
    assert RedemptionOk(s.codes, EarnerOf(s, t)) && RedemptionOk(s.codes, EarnerOf(s, t'));
    if EarnerOf(s, t).form.code == EarnerOf(s, t').form.code {
      CodeStore.BothFindTogether(s.codes.log, EarnerOf(s, t).redemption, EarnerOf(s, t').redemption);
    }
  }

  /** Two requests for one jti have both been let through by the replay cache, the first one loading first. */
  predicate BothAdmitted(s: State, j: int, k: int) {
    && 0 <= j < |s.apiCalls| && 0 <= k < |s.apiCalls| && s.apiCalls[j].evidence.Some? && s.apiCalls[k].evidence.Some?
    && s.apiCalls[j].evidence.value.jti == s.apiCalls[k].evidence.value.jti
    && s.apiCalls[j].evidence.value.load < s.apiCalls[k].evidence.value.load
    && IsLoad(s.gateway.log, s.apiCalls[j].evidence.value.load) && IsLoad(s.gateway.log, s.apiCalls[k].evidence.value.load)
  }

  /**
   * Two requests with one jti that the gateway lets through: the second loads at least 120 s after the first
   * read its clock, or the first was overlapped by another request's load and store or by a sweeper's look
   * and delete. The first request ever for the jti is never overlapped. For one proof, good for 60 s on
   * either side of its iat, the first thus read its clock no later than 60 s before iat, but for the second's delay.
   */
  lemma {:induction false} ProofsAreSingleUse(c: Checks, start: int, actions: seq<Action>, j: nat, k: nat)
    requires BothAdmitted(Run(c, Start(start), actions), j, k)
    ensures var s := Run(c, Start(start), actions); var log, e, f := s.gateway.log, s.apiCalls[j].evidence.value, s.apiCalls[k].evidence.value;
      && (First(log, e.load) ==> !Overlapped(log, e.load, f.load))
      && (Overlapped(log, e.load, f.load)
          || (&& log[f.load].at >= log[e.load].now + 120 * SECOND
              && forall iat :: InWindow(iat, f.at) ==> log[e.load].now <= iat * SECOND - 60 * SECOND + (log[f.load].at - f.at)))
  {
    var s := Run(c, Start(start), actions);
    GatewayInvRun(c, start, actions);
    var e, f := s.apiCalls[j].evidence.value, s.apiCalls[k].evidence.value;
    assert CallLoaded(s.gateway, s.apiCalls[j]) && CallLoaded(s.gateway, s.apiCalls[k]);
    SpacedUnlessOverlapped(s.gateway.log, e.load, f.load);
    if First(s.gateway.log, e.load) {
      FirstIsSafe(s.gateway.log, e.load, f.load);
    }
  }

  /** The redemptions behind two served requests: of one code, and both loaded before either deleted. */
  ghost predicate RedeemedTogether(s: State, a: ApiCall, b: ApiCall)
    requires HasOrigin(s, a) && HasOrigin(s, b)
  {
    && IssueOf(s, a).call != IssueOf(s, b).call
    && CodeStore.Together(s.codes.log, s.tokenCalls[IssueOf(s, a).call].redemption, s.tokenCalls[IssueOf(s, b).call].redemption)
  }

  /** Two served requests go back to one authorization if and only if they bear one token, or tokens earned by overlapping redemptions. */
  lemma {:induction false} SameGrantIffSameToken(c: Checks, start: int, actions: seq<Action>, j: nat, k: nat)
    requires var s := Run(c, Start(start), actions);
      j < |s.apiCalls| && k < |s.apiCalls| && s.apiCalls[j].pc.Serving? && s.apiCalls[k].pc.Serving?
    ensures var s := Run(c, Start(start), actions);
      && HasOrigin(s, s.apiCalls[j]) && HasOrigin(s, s.apiCalls[k])
      && (FormOf(s, s.apiCalls[j]).code == FormOf(s, s.apiCalls[k]).code
          <==> s.apiCalls[j].evidence.value.token == s.apiCalls[k].evidence.value.token
               || RedeemedTogether(s, s.apiCalls[j], s.apiCalls[k]))
  {
    var s := Run(c, Start(start), actions);
    InvRun(c, start, actions);
    CodesInvRun(c, start, actions);
    Origin(c, s, j);
    Origin(c, s, k);
    var t, t' := s.apiCalls[j].evidence.value.token, s.apiCalls[k].evidence.value.token;
    assert Traced(c, s, t) && Traced(c, s, t');
    assert RedemptionOk(s.codes, EarnerOf(s, t)) && RedemptionOk(s.codes, EarnerOf(s, t'));
    if t != t' {
      TokensHaveOwnGrants(c, start, actions, t, t');
    }
  }
}
