/**
 * The handlers as methods and the handlers as steps are the same: a call that no other call comes
 * between ends in the state, and with the answer, that its method has.
 */
module Refinement {
  import opened Common
  import opened Jwk
  import opened TtlStore
  import opened Idp
  import opened Protocol
  import opened ReplayCache
  import opened Agreement
  import CodeStore
  import Gateway

  /** What the IdP has in memory. */
  function IdpStore(s: State): Idp.Store {
    Idp.Store(s.codes.entries, s.idp.entries)
  }

  // ----- the authorization endpoint

  /**
   * AuthorizeHandler is its one step, and hands the code out exactly when the request was in order, the
   * redirect URI parses and a headless client has shown its secret; the code is saved in any case
   * once the request was in order.
   */
  lemma {:induction false} AuthorizeHandlerIsItsStep(h: Hash, enforceZiti: bool, failOpen: bool, s: State, q: AuthorizeQuery, code: string)
    requires code !in s.grants
    ensures var s', r := Next(RealChecks(h, enforceZiti, failOpen), s, Authorize(q, code)), Authorized(IdpStore(s), q, code, s.now);
      && IdpStore(s') == r.1 && (code in s'.grants <==> CheckAuthorize(q).None?)
      && (r.0 == Sent(code) <==>
            code in s'.grants && q.redirectParses && (q.wantsJson ==> SecretOf(q.clientId) == Some(q.clientSecret)))
      && (code in s'.grants ==> s'.codes.entries == s.codes.entries[code := CodeInfo(q.codeChallenge, q.clientId, s.now + 300 * SECOND)])
  {
  }

  // ----- the token endpoint

  /** The next step of token call `i`, with the clock at `now`. */
  function TokenAt(c: Checks, s: State, i: nat, text: string, now: int): State {
    Next(c, s.(now := now), TokenStep(i, text, now))
  }

  /** A code that is there is deleted, and then looked at. */
  function RedeemAt(c: Checks, s: State, i: nat, text: string, now: int): State {
    var s1 := TokenAt(c, s, i, text, now);
    if i < |s1.tokenCalls| && s1.tokenCalls[i].pc.Found? then TokenAt(c, TokenAt(c, s1, i, text, now), i, text, now) else s1
  }

  /** The jti is claimed in one step, or in two if an entry that has run out is in the way. */
  function ClaimAt(c: Checks, s: State, i: nat, text: string, now: int): State {
    var s1 := TokenAt(c, s, i, text, now);
    if i < |s1.tokenCalls| && s1.tokenCalls[i].pc.Storing? then TokenAt(c, s1, i, text, now) else s1
  }

  function TokenStepsAt(c: Checks, s: State, i: nat, text: string, t: Idp.Times): State {
    TokenAt(c, ClaimAt(c, TokenAt(c, RedeemAt(c, s, i, text, t.redeem), i, text, t.proof), i, text, t.jti), i, text, t.sign)
  }

  lemma {:induction false} AfterFind(h: Hash, c: Checks, s: State, i: nat, text: string, now: int)
    requires i < |s.tokenCalls| && s.tokenCalls[i].pc.Arrived?
    requires forall form :: c.form(form) == CheckForm(form)
    ensures var s', call, m := TokenAt(c, s, i, text, now), s.tokenCalls[i], s.codes.entries;
      var code := call.form.code;
      && s' == s.(now := now, codes := s'.codes, tokenCalls := s'.tokenCalls) && s'.codes.entries == m && |s'.tokenCalls| == |s.tokenCalls|
      && s'.tokenCalls[i] ==
           (if CheckForm(call.form).Some? then call.(pc := TurnedAway(CheckForm(call.form).value))
            else if code !in m then call.(pc := TurnedAway(InvalidGrant))
            else call.(redemption := |s.codes.log|, pc := Found(m[code])))
      && (s'.tokenCalls[i].pc.Found? ==> s'.codes.log == s.codes.log + [CodeStore.Loaded(code, now)])
  {
  }

  lemma {:induction false} AfterTake(h: Hash, c: Checks, s: State, i: nat, text: string, now: int)
    requires i < |s.tokenCalls| && s.tokenCalls[i].pc.Found? && CodeStore.IsLoad(s.codes.log, s.tokenCalls[i].redemption)
    requires forall form, ch, cl :: c.code(form, ch, cl) == RefusedCode(h, form, ch, cl)
    ensures var s', call, info := TokenAt(c, TokenAt(c, s, i, text, now), i, text, now), s.tokenCalls[i], s.tokenCalls[i].pc.info;
      var r := CheckCode(h, call.form, if now > info.expiresAt then None else Some((info.challenge, info.client)));
      && s' == s.(now := now, codes := s'.codes, tokenCalls := s'.tokenCalls) && |s'.tokenCalls| == |s.tokenCalls|
      && s'.codes.entries == s.codes.entries - {s.codes.log[call.redemption].code}
      && s'.tokenCalls[i] == (if r.Rejected? then call.(pc := TurnedAway(r.error)) else call.(client := info.client, pc := Holding(now)))
      && (r.Redeemed? ==> r.client == info.client)
  {
  }

  /** How a call stands once it has redeemed its code, or been turned away. */
  lemma {:induction false} AfterRedeem(h: Hash, c: Checks, s: State, i: nat, text: string, t: Idp.Times)
    requires i < |s.tokenCalls| && s.tokenCalls[i].pc.Arrived?
    requires forall form :: c.form(form) == CheckForm(form)
    requires forall form, ch, cl :: c.code(form, ch, cl) == RefusedCode(h, form, ch, cl)
    ensures var s', form := RedeemAt(c, s, i, text, t.redeem), s.tokenCalls[i].form;
      var found := Redeem(s.codes.entries, form.code, t.redeem);
      && |s'.tokenCalls| == |s.tokenCalls| && s'.issues == s.issues && s'.idp == s.idp && s'.tokenCalls[i].form == form
      && s'.codes.entries == (if CheckForm(form).Some? then s.codes.entries else found.1)
      && s'.tokenCalls[i].pc ==
           (if CheckForm(form).Some? then TurnedAway(CheckForm(form).value)
            else match CheckCode(h, form, found.0) case Rejected(e) => TurnedAway(e) case Redeemed(_, _) => Holding(t.redeem))
      && (s'.tokenCalls[i].pc.Holding? ==>
            CheckCode(h, form, found.0).Redeemed? && s'.tokenCalls[i].client == CheckCode(h, form, found.0).client)
  {
    AfterFind(h, c, s, i, text, t.redeem);
    var s1 := TokenAt(c, s, i, text, t.redeem);
    if s1.tokenCalls[i].pc.Found? {
      AfterTake(h, c, s1, i, text, t.redeem);
    }
  }

  lemma {:induction false} AfterProof(h: Hash, c: Checks, s: State, i: nat, text: string, now: int)
    requires i < |s.tokenCalls| && s.tokenCalls[i].pc.Holding?
    requires forall form, at :: c.idpProof(form, at) == Idp.CheckProof(h, form, at)
    ensures var s', call := TokenAt(c, s, i, text, now), s.tokenCalls[i];
      var p := Idp.CheckProof(h, call.form, now);
      && s' == s.(now := now, tokenCalls := s'.tokenCalls) && |s'.tokenCalls| == |s.tokenCalls|
      && s'.tokenCalls[i] == call.(pc := if p.Err? then TurnedAway(ProofError(call.form))
                                         else Proved(call.pc.redeemedAt, KeyProof(p.value.0, p.value.1, now)))
  {
  }

  lemma {:induction false} AfterClaim(c: Checks, s: State, i: nat, text: string, now: int)
    requires i < |s.tokenCalls| && s.tokenCalls[i].pc.Proved? && s.tokenCalls[i].pc.key.at <= now
    ensures var s', call := ClaimAt(c, s, i, text, now), s.tokenCalls[i];
      var r := CheckAndSave(s.idp.entries, call.pc.key.jti, JTI_TTL, now);
      && s' == s.(now := now, tokenCalls := s'.tokenCalls, idp := s'.idp) && s'.idp.entries == r.1 && |s'.tokenCalls| == |s.tokenCalls|
      && s'.tokenCalls[i] == call.(pc := if r.0 then TurnedAway(InvalidDpopProof) else Admitted(call.pc.redeemedAt, call.pc.key))
  {
    UninterruptedCall(s.idp, s.tokenCalls[i].pc.key.jti, JTI_TTL, now);
  }

  lemma {:induction false} AfterSign(c: Checks, s: State, i: nat, text: string, now: int)
    requires i < |s.tokenCalls| && s.tokenCalls[i].pc.Admitted? && text !in s.issues
    ensures var s', call := TokenAt(c, s, i, text, now), s.tokenCalls[i];
      && s'.codes == s.codes && s'.idp == s.idp && |s'.tokenCalls| == |s.tokenCalls| && s'.tokenCalls[i].pc == Ended(text)
      && text in s'.issues && s'.issues[text].claims == c.claims(call.client, call.pc.key.jkt, now)
  {
  }

  lemma {:induction false} TurnedAwayStays(c: Checks, s: State, i: nat, text: string, now: int)
    requires i < |s.tokenCalls| && s.tokenCalls[i].pc.TurnedAway?
    ensures TokenAt(c, s, i, text, now) == s.(now := now)
  {
  }

  lemma {:induction false} TurnedAwayStaysClaiming(c: Checks, s: State, i: nat, text: string, now: int)
    requires i < |s.tokenCalls| && s.tokenCalls[i].pc.TurnedAway?
    ensures ClaimAt(c, s, i, text, now) == s.(now := now)
  {
    TurnedAwayStays(c, s, i, text, now);
  }

  /** TokenHandler in one go is its steps. */
  lemma {:induction false} TokenHandlerIsItsSteps(h: Hash, enforceZiti: bool, failOpen: bool, s: State, i: nat, text: string, t: Idp.Times)
    requires i < |s.tokenCalls| && s.tokenCalls[i].pc.Arrived? && text !in s.issues && t.proof <= t.jti
    ensures var c := RealChecks(h, enforceZiti, failOpen);
      var s', r := TokenStepsAt(c, s, i, text, t), Exchanged(h, IdpStore(s), s.tokenCalls[i].form, t);
      && IdpStore(s') == r.1 && i < |s'.tokenCalls|
      && match r.0
         case Denied(error) => s'.tokenCalls[i].pc == TurnedAway(error)
         case Issued(claims) => s'.tokenCalls[i].pc == Ended(text) && text in s'.issues && s'.issues[text].claims == claims
  {
    var c := RealChecks(h, enforceZiti, failOpen);
    AfterRedeem(h, c, s, i, text, t);
    var s1 := RedeemAt(c, s, i, text, t.redeem);
    if s1.tokenCalls[i].pc.TurnedAway? {
      TurnedAwayStays(c, s1, i, text, t.proof);
      TurnedAwayStaysClaiming(c, s1.(now := t.proof), i, text, t.jti);
      TurnedAwayStays(c, s1.(now := t.jti), i, text, t.sign);
    } else {
      AfterProof(h, c, s1, i, text, t.proof);
      var s2 := TokenAt(c, s1, i, text, t.proof);
      if s2.tokenCalls[i].pc.TurnedAway? {
        TurnedAwayStaysClaiming(c, s2, i, text, t.jti);
        TurnedAwayStays(c, s2.(now := t.jti), i, text, t.sign);
      } else {
        AfterClaim(c, s2, i, text, t.jti);
        var s3 := ClaimAt(c, s2, i, text, t.jti);
        if s3.tokenCalls[i].pc.TurnedAway? {
          TurnedAwayStays(c, s3, i, text, t.sign);
        } else {
          AfterSign(c, s3, i, text, t.sign);
        }
      }
    }
  }

  // ----- SecureAPI

  function ApiAt(c: Checks, s: State, j: nat, keyKnown: bool, now: int): State {
    Next(c, s.(now := now), ApiStep(j, keyKnown, None, now))
  }

  function ClaimApiAt(c: Checks, s: State, j: nat, keyKnown: bool, now: int): State {
    var s1 := ApiAt(c, s, j, keyKnown, now);
    if j < |s1.apiCalls| && s1.apiCalls[j].pc.Writing? then ApiAt(c, s1, j, keyKnown, now) else s1
  }

  function ApiStepsAt(c: Checks, s: State, j: nat, keyKnown: bool, t: Gateway.Times): State {
    ApiAt(c, ClaimApiAt(c, ApiAt(c, s, j, keyKnown, t.proof), j, keyKnown, t.jti), j, keyKnown, t.token)
  }

  lemma {:induction false} AfterShow(h: Hash, c: Checks, s: State, j: nat, keyKnown: bool, now: int)
    requires j < |s.apiCalls| && s.apiCalls[j].pc.Received?
    requires forall req, at :: c.apiProof(req, at) == Gateway.CheckProof(h, req, at)
    ensures var s', p := ApiAt(c, s, j, keyKnown, now), Gateway.CheckProof(h, s.apiCalls[j].req, now);
      s' == s.(now := now, apiCalls := s.apiCalls[j := s.apiCalls[j].(pc :=
              if p.Stopped? then Refused(p.status) else Shown(p.value.0, p.value.1, p.value.2, now))])
  {
  }

  lemma {:induction false} AfterReplay(c: Checks, s: State, j: nat, keyKnown: bool, now: int)
    requires j < |s.apiCalls| && s.apiCalls[j].pc.Shown? && s.apiCalls[j].pc.at <= now
    ensures var s', call := ClaimApiAt(c, s, j, keyKnown, now), s.apiCalls[j];
      var r := CheckAndSave(s.gateway.entries, call.pc.jti, JTI_TTL, now);
      && s'.gateway.entries == r.1 && s'.issues == s.issues && |s'.apiCalls| == |s.apiCalls|
      && s'.apiCalls[j] ==
           (if r.0 then call.(pc := Refused(Gateway.Unauthorized))
            else ApiCall(call.req, Unreplayed, Some(Evidence(call.pc.jkt, call.pc.jti, call.pc.token, call.pc.at, |s.gateway.log|))))
  {
    UninterruptedCall(s.gateway, s.apiCalls[j].pc.jti, JTI_TTL, now);
  }

  /** The claims of a text, as SecureAPI gets them from the key set and the signature. */
  function VerifiedBy(s: State, keyKnown: bool): string -> Option<Claims> {
    text => if keyKnown && text in s.issues then Some(s.issues[text].claims) else None
  }

  lemma {:induction false} AfterVerify(enforceZiti: bool, c: Checks, s: State, j: nat, keyKnown: bool, now: int)
    requires j < |s.apiCalls| && s.apiCalls[j].pc.Unreplayed? && s.apiCalls[j].evidence.Some?
    requires forall claims, jkt, at :: c.token(claims, jkt, at) == Refusal(Gateway.CheckToken(Some(claims), jkt, at))
    requires forall req: Gateway.ApiRequest, claims :: c.identity(req, claims) == Refusal(Gateway.CheckIdentity(enforceZiti, req.identity, claims))
    ensures var s', call := ApiAt(c, s, j, keyKnown, now), s.apiCalls[j];
      var checked := Gateway.CheckToken(VerifiedBy(s, keyKnown)(call.evidence.value.token), call.evidence.value.jkt, now);
      && s'.gateway == s.gateway && |s'.apiCalls| == |s.apiCalls|
      && s'.apiCalls[j].pc ==
           if checked.Stopped? then Refused(checked.status)
           else match Gateway.CheckIdentity(enforceZiti, call.req.identity, checked.value)
             case Stopped(status) => Refused(status)
             case Passed(claims) => Authenticated(claims, now)
  {
  }

  lemma {:induction false} RefusedStays(c: Checks, s: State, j: nat, keyKnown: bool, now: int)
    requires j < |s.apiCalls| && s.apiCalls[j].pc.Refused?
    ensures ApiAt(c, s, j, keyKnown, now) == s.(now := now)
  {
  }

  lemma {:induction false} RefusedStaysClaiming(c: Checks, s: State, j: nat, keyKnown: bool, now: int)
    requires j < |s.apiCalls| && s.apiCalls[j].pc.Refused?
    ensures ClaimApiAt(c, s, j, keyKnown, now) == s.(now := now)
  {
    RefusedStays(c, s, j, keyKnown, now);
  }

  /** SecureAPI in one go is its steps. */
  lemma {:induction false} SecureApiIsItsSteps(h: Hash, enforceZiti: bool, failOpen: bool, s: State, j: nat, keyKnown: bool, t: Gateway.Times)
    requires j < |s.apiCalls| && s.apiCalls[j].pc.Received? && t.proof <= t.jti
    ensures var c := RealChecks(h, enforceZiti, failOpen);
      var s' := ApiStepsAt(c, s, j, keyKnown, t);
      var r := Gateway.Secured(h, enforceZiti, s.gateway.entries, s.apiCalls[j].req, VerifiedBy(s, keyKnown), t);
      && s'.gateway.entries == r.1 && j < |s'.apiCalls|
      && s'.apiCalls[j].pc == match r.0 case Stopped(status) => Refused(status) case Passed(claims) => Authenticated(claims, t.token)
  {
    var c := RealChecks(h, enforceZiti, failOpen);
    AfterShow(h, c, s, j, keyKnown, t.proof);
    var s1 := ApiAt(c, s, j, keyKnown, t.proof);
    if s1.apiCalls[j].pc.Refused? {
      RefusedStaysClaiming(c, s1, j, keyKnown, t.jti);
      RefusedStays(c, s1.(now := t.jti), j, keyKnown, t.token);
    } else {
      AfterReplay(c, s1, j, keyKnown, t.jti);
      var s2 := ClaimApiAt(c, s1, j, keyKnown, t.jti);
      if s2.apiCalls[j].pc.Refused? {
        RefusedStays(c, s2, j, keyKnown, t.token);
      } else {
        AfterVerify(enforceZiti, c, s2, j, keyKnown, t.token);
      }
    }
  }
}
