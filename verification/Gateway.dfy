/** The gateway: its ordered checks of proof, replay, token, identity and policy, and its handlers. */
module Gateway {
  import opened Common
  import opened DpopProof
  import opened TtlStore
  import ReplayCache
  import Jwk
  import Idp
  import Database
  import DbClient
  import Metrics

  // ----- messages

  /** `body` is what the JSON decoder makes of the request's body; `identity` is "" off the overlay network. */
  datatype ApiRequest = ApiRequest(
    authorization: string, header: Idp.ProofHeader, method_: string, tls: bool, host: string, path: string,
    identity: string, remoteAddr: string, body: Option<(real, string)>)

  datatype Status = OK | Created | BadRequest | Unauthorized | Forbidden | NotFound | InternalError | Unavailable

  datatype Checked<+T> = Passed(value: T) | Stopped(status: Status)

  function FullUri(req: ApiRequest): string {
    (if req.tls then "https" else "http") + "://" + req.host + req.path
  }

  // ----- the checks of SecureAPI

  /** `Authorization: DPoP <token>`, the scheme in any case. */
  function AccessToken(authorization: string): Option<string> {
    var i := Index(authorization, " ");
    if i == -1 || !EqualFold(authorization[..i], "DPoP") then None else Some(authorization[i + 1..])
  }

  /** The thumbprint, the jti and the token that the proof is bound to. */
  function CheckProof(h: Jwk.Hash, req: ApiRequest, now: int): Checked<(string, string, string)> {
    var token := AccessToken(req.authorization);
    if token.None? || !req.header.Signed? then Stopped(Unauthorized)
    else
      var p := GatewayVerify(h, req.header.sp, req.method_, FullUri(req), token.value, now);
      if p.Err? then Stopped(Unauthorized) else Passed((p.value.0, p.value.1, token.value))
  }

  /** `verified` holds the claims of the token if it carries a good signature of the IdP. */
  function CheckToken(verified: Option<Idp.Claims>, jkt: string, now: int): Checked<Idp.Claims> {
    if verified.None? || now >= verified.value.exp * SECOND then Stopped(Unauthorized)
    else if verified.value.jkt != jkt then Stopped(Unauthorized)
    else Passed(verified.value)
  }

  /** On the overlay network, and wherever its use is enforced, the network identity must be the token's subject. */
  predicate IdentityHolds(enforceZiti: bool, identity: string, sub: string) {
    if enforceZiti then identity != "" && sub == identity else identity == "" || sub == identity
  }

  function CheckIdentity(enforceZiti: bool, identity: string, claims: Idp.Claims): Checked<Idp.Claims> {
    if IdentityHolds(enforceZiti, identity, claims.sub) then Passed(claims) else Stopped(Forbidden)
  }

  /** The readings of the clock during one request, in order. */
  datatype Times = Times(proof: int, jti: int, token: int, identity: int)

  /** SecureAPI when no other request comes in between. */
  function Secured(
      h: Jwk.Hash, enforceZiti: bool, jtis: map<string, int>, req: ApiRequest, verified: string -> Option<Idp.Claims>, t: Times)
    : (Checked<Idp.Claims>, map<string, int>)
  {
    var p := CheckProof(h, req, t.proof);
    if p.Stopped? then (Stopped(p.status), jtis)
    else
      var (jkt, jti, token) := p.value;
      var (used, jtis') := CheckAndSave(jtis, jti, ReplayCache.JTI_TTL, t.jti);
      if used then (Stopped(Unauthorized), jtis')
      else
        var c := CheckToken(verified(token), jkt, t.token);
        if c.Stopped? then (c, jtis') else (CheckIdentity(enforceZiti, req.identity, c.value), jtis')
  }

  /** The header names the scheme and then, after one space, the token. */
  lemma {:induction false} AccessTokenIff(a: string, token: string)
    ensures AccessToken(a) == Some(token) <==> |a| >= 5 && EqualFold(a[..4], "DPoP") && a[4] == ' ' && token == a[5..]
  {
    if |a| >= 5 && EqualFold(a[..4], "DPoP") && a[4] == ' ' {
      assert a[4..5] == " " && forall i :: 0 <= i < 4 ==> a[..4][i] != ' ';
      IndexOfFirst(a, " ", 4);
    } else if AccessToken(a).Some? {
      StandsWithItsFirst(a, " ");
    }
  }

  lemma {:induction false} TokenAfterScheme(a: string)
    ensures AccessToken(a) == if |a| >= 5 && EqualFold(a[..4], "DPoP") && a[4] == ' ' then Some(a[5..]) else None
  {
    if |a| >= 5 {
      AccessTokenIff(a, a[5..]);
    }
    if AccessToken(a).Some? {
      AccessTokenIff(a, AccessToken(a).value);
    }
  }

  /** The URI that a proof is checked against leads to the path of the request. */
  lemma {:induction false} UriHoldsPath(req: ApiRequest)
    requires '/' !in req.host && (req.path == "" || req.path[0] == '/')
    ensures StripHostAndScheme(FullUri(req)) == if req.path == "" then "/" else req.path
  {
    StripLeavesPath(if req.tls then "https" else "http", req.host, req.path);
  }

  /** Network identities that go with a subject: the subject's own, or none where none is enforced. */
  lemma IdentityIff(enforceZiti: bool, identity: string, claims: Idp.Claims)
    ensures CheckIdentity(enforceZiti, identity, claims)
         == if (identity == claims.sub && identity != "") || (identity == "" && !enforceZiti) then Passed(claims) else Stopped(Forbidden)
  {
  }

  /** The request bears a DPoP token, and a proof that verifies for its method, its host and path, and the token. */
  predicate Proved(h: Jwk.Hash, req: ApiRequest, at: int) {
    var a := req.authorization;
    && |a| >= 5 && EqualFold(a[..4], "DPoP") && a[4] == ' ' && req.header.Signed?
    && GatewayVerify(h, req.header.sp, req.method_, (if req.tls then "https" else "http") + "://" + req.host + req.path, a[5..], at).Ok?
  }

  lemma {:induction false} ProofShows(h: Jwk.Hash, sp: SignedProof, method_: string, target: string, token: string, at: int)
    ensures var v, p := GatewayVerify(h, sp, method_, target, token, at), sp.proof;
      v.Ok? ==> p.jwk.Some? && v.value == (Jwk.GatewayThumbprint(h, p.jwk.value.x, p.jwk.value.y), p.jti)
  {
  }

  lemma {:induction false} ProvedIff(h: Jwk.Hash, req: ApiRequest, at: int)
    ensures var p := CheckProof(h, req, at);
      && (p.Passed? <==> Proved(h, req, at)) && (p.Stopped? ==> p.status == Unauthorized)
      && (p.Passed? ==> req.header.sp.proof.jwk.Some?)
      && (p.Passed? ==> p.value.0 == Jwk.GatewayThumbprint(h, req.header.sp.proof.jwk.value.x, req.header.sp.proof.jwk.value.y))
      && (p.Passed? ==> p.value.1 == req.header.sp.proof.jti && p.value.2 == req.authorization[5..])
  {
    var a := req.authorization;
    TokenAfterScheme(a);
    if AccessToken(a).Some? && req.header.Signed? {
      ProofShows(h, req.header.sp, req.method_, FullUri(req), a[5..], at);
    }
  }

  /** Claims that the IdP has signed, live and bound to the key of the proof. */
  predicate Entitled(h: Jwk.Hash, req: ApiRequest, verified: Option<Idp.Claims>, at: int) {
    && verified.Some? && at < verified.value.exp * SECOND && req.header.Signed? && req.header.sp.proof.jwk.Some?
    && verified.value.jkt == Jwk.GatewayThumbprint(h, req.header.sp.proof.jwk.value.x, req.header.sp.proof.jwk.value.y)
  }

  /**
   * Exactly what SecureAPI lets through: a proved request whose jti no running lease claims, entitled by its
   * token, under a network identity that fits. The identity alone is Forbidden, all else Unauthorized; and
   * the jti is claimed once the proof is good, whatever comes of the request.
   */
  lemma {:induction false} SecuredIff(
      h: Jwk.Hash, enforceZiti: bool, jtis: map<string, int>, req: ApiRequest, verified: string -> Option<Idp.Claims>, t: Times)
    ensures var r, a := Secured(h, enforceZiti, jtis, req, verified, t), req.authorization;
      var jti := if req.header.Signed? then req.header.sp.proof.jti else "";
      var claims := if |a| >= 5 then verified(a[5..]) else None;
      var unused := jti in jtis ==> jtis[jti] <= t.jti;
      var admitted := Proved(h, req, t.proof) && unused && Entitled(h, req, claims, t.token);
      var fits := claims.Some? && ((req.identity == claims.value.sub && req.identity != "") || (req.identity == "" && !enforceZiti));
      && (r.0.Passed? <==> admitted && fits) && (r.0.Passed? ==> claims == Some(r.0.value))
      && (r.0 == Stopped(Forbidden) <==> admitted && !fits) && (r.0.Stopped? ==> r.0.status in {Unauthorized, Forbidden})
      && r.1 == if Proved(h, req, t.proof) && unused then jtis[jti := t.jti + 120 * SECOND] else jtis
  {
    ProvedIff(h, req, t.proof);
  }

  // ----- the policy

  datatype Resource = BalanceResource | TransferResource | AuditLogsResource | UnknownResource

  predicate HasPrefix(s: string, prefix: string) {
    prefix <= s
  }

  function ResourceOf(path: string): Resource {
    if HasPrefix(path, "/api/balance") then BalanceResource
    else if HasPrefix(path, "/api/transfer") then TransferResource
    else if HasPrefix(path, "/api/audit-logs") then AuditLogsResource
    else UnknownResource
  }

  datatype Act = Read | Create

  function ActionOf(method_: string): Act {
    if method_ == "POST" || method_ == "PUT" || method_ == "DELETE" then Create else Read
  }

  /** What is asked of the policy decision point, the attributes of the request aside. */
  datatype PolicyQuestion = PolicyQuestion(tenantId: string, subject: string, action: Act, resource: Resource)

  function QuestionOf(req: ApiRequest, claims: Idp.Claims): PolicyQuestion {
    PolicyQuestion(claims.tenantId, "role:" + claims.role, ActionOf(req.method_), ResourceOf(req.path))
  }

  /** Its reply; none when it cannot be reached in time. */
  datatype PolicyReply = PolicyReply(allow: bool, policyId: string)

  /** The decision table of CheckAccess: only an unreachable decision point is subject to the fail-open switch. */
  function Decide(reply: Option<PolicyReply>, failOpen: bool): Checked<string> {
    if reply.None? then (if failOpen then Passed("") else Stopped(Unavailable))
    else if reply.value.allow then Passed(reply.value.policyId)
    else Stopped(Forbidden)
  }

  // ----- the routes and their handlers

  datatype Route = TransferRoute | BalanceRoute | AuditLogsRoute

  /** The patterns have no trailing slash and match whole paths. */
  function RouteOf(path: string): Option<Route> {
    if path == "/api/transfer" then Some(TransferRoute)
    else if path == "/api/balance" then Some(BalanceRoute)
    else if path == "/api/audit-logs" then Some(AuditLogsRoute)
    else None
  }

  /** What a handler asks of the database: the tenant and the subject are those of the claims, whatever the body says. */
  function RequestOf(route: Route, req: ApiRequest, claims: Idp.Claims): Checked<Database.Request> {
    match route
    case TransferRoute =>
      if req.body.None? || req.body.value.0 <= 0.0 then Stopped(BadRequest)
      else Passed(Database.Transfer(claims.tenantId, req.body.value.0, req.body.value.1, claims.sub))
    case BalanceRoute => Passed(Database.Balance(claims.tenantId, claims.sub))
    case AuditLogsRoute => Passed(Database.Logs(claims.tenantId))
  }

  /** The handler that the path selects, if any. */
  function Handled(req: ApiRequest, claims: Idp.Claims): Checked<Database.Request> {
    if RouteOf(req.path).None? then Stopped(NotFound) else RequestOf(RouteOf(req.path).value, req, claims)
  }

  /** Each route asks the policy about its own resource, in the name of the claims' tenant and role; only POST, PUT and DELETE create. */
  lemma RoutesHaveResources(req: ApiRequest, claims: Idp.Claims)
    requires req.path in {"/api/transfer", "/api/balance", "/api/audit-logs"}
    ensures QuestionOf(req, claims) == PolicyQuestion(
      claims.tenantId, "role:" + claims.role, if req.method_ in {"POST", "PUT", "DELETE"} then Create else Read,
      if req.path == "/api/transfer" then TransferResource else if req.path == "/api/balance" then BalanceResource else AuditLogsResource)
  {
    if req.path == "/api/transfer" {
      assert req.path[5] == 't';
    } else if req.path == "/api/audit-logs" {
      assert req.path[5] == 'a';
    }
  }

  /**
   * Exactly what each route asks of the database: in the name of the claims, with the amount and the
   * description of the body as they are. A transfer needs a body and a positive amount.
   */
  lemma HandledIff(req: ApiRequest, claims: Idp.Claims, q: Database.Request)
    ensures Handled(req, claims) == Passed(q) <==>
      || (&& req.path == "/api/transfer" && req.body.Some? && req.body.value.0 > 0.0
          && q == Database.Transfer(claims.tenantId, req.body.value.0, req.body.value.1, claims.sub))
      || (req.path == "/api/balance" && q == Database.Balance(claims.tenantId, claims.sub))
      || (req.path == "/api/audit-logs" && q == Database.Logs(claims.tenantId))
    ensures Handled(req, claims) == Stopped(NotFound) <==> req.path !in {"/api/transfer", "/api/balance", "/api/audit-logs"}
    ensures Handled(req, claims) == Stopped(BadRequest) <==> req.path == "/api/transfer" && (req.body.None? || req.body.value.0 <= 0.0)
  {
  }

  // ----- the middleware

  class AuthMiddleware {
    const cache: JtiCache
    const metrics: Metrics.MetricsStore
    const h: Jwk.Hash
    const enforceZiti: bool
    const failOpen: bool

    constructor (h: Jwk.Hash, enforceZiti: bool, failOpen: bool, metrics: Metrics.MetricsStore)
      ensures this.h == h && this.enforceZiti == enforceZiti && this.failOpen == failOpen && this.metrics == metrics
      ensures fresh(cache) && cache.jtis == map[]
    {
      this.h, this.enforceZiti, this.failOpen, this.metrics := h, enforceZiti, failOpen, metrics;
      cache := new JtiCache();
    }

    method SecureAPI(req: ApiRequest, verified: string -> Option<Idp.Claims>, t: Times) returns (r: Checked<Idp.Claims>)
      modifies cache, metrics
      ensures (r, cache.jtis) == Secured(h, enforceZiti, old(cache.jtis), req, verified, t)
      ensures metrics.Now() == if r.Stopped? then old(metrics.Now()) else old(metrics.Now()).(
        dpop := (t.jti - t.proof) / 1000, token := (t.token - t.jti) / 1000, ziti := (t.identity - t.token) / 1000)
    {
      if req.authorization == "" {
        return Stopped(Unauthorized);
      }
      var space := Index(req.authorization, " ");
      if space == -1 || !EqualFold(req.authorization[..space], "DPoP") {
        return Stopped(Unauthorized);
      }
      var accessToken := req.authorization[space + 1..];
      if !req.header.Signed? {
        return Stopped(Unauthorized);
      }
      var proof := GatewayVerify(h, req.header.sp, req.method_, FullUri(req), accessToken, t.proof);
      if proof.Err? {
        return Stopped(Unauthorized);
      }
      var (jkt, jti) := proof.value;
      var used := cache.IsJtiUsedAndSave(jti, ReplayCache.JTI_TTL, t.jti);
      if used {
        return Stopped(Unauthorized);
      }
      var dpopTime := (t.jti - t.proof) / 1000;
      var claims := verified(accessToken);
      if claims.None? || t.token >= claims.value.exp * SECOND {
        return Stopped(Unauthorized);
      }
      if claims.value.jkt != jkt {
        return Stopped(Unauthorized);
      }
      var tokenTime := (t.token - t.jti) / 1000;
      if enforceZiti {
        if req.identity == "" {
          return Stopped(Forbidden);
        }
        if claims.value.sub != req.identity {
          return Stopped(Forbidden);
        }
      } else {
        if req.identity != "" && claims.value.sub != req.identity {
          return Stopped(Forbidden);
        }
      }
      metrics.RecordSecurityOverhead(dpopTime, tokenTime, (t.identity - t.token) / 1000);
      return Passed(claims.value);
    }

    /** CheckAccess of the policy client. */
    method CheckAccess(reply: Option<PolicyReply>) returns (allow: bool, policyId: string, status: Option<Status>)
      ensures Decide(reply, failOpen) == if allow then Passed(policyId) else Stopped(if status.Some? then status.value else OK)
      ensures allow <==> status.None?
    {
      if reply.None? {
        if failOpen {
          return true, "", None;
        }
        return false, "", Some(Unavailable);
      }
      if reply.value.allow {
        return true, reply.value.policyId, None;
      }
      return false, reply.value.policyId, Some(Forbidden);
    }

    /** `ask` stands for the policy decision point. */
    method EnforcePolicy(req: ApiRequest, claims: Idp.Claims, ask: PolicyQuestion -> Option<PolicyReply>, latency: int)
      returns (r: Checked<string>)
      modifies metrics
      ensures var reply := ask(QuestionOf(req, claims));
        && (r.Passed? <==> if reply.Some? then reply.value.allow else failOpen)
        && (r.Stopped? ==> r.status == if reply.Some? then Forbidden else Unavailable)
        && (r.Passed? && reply.Some? ==> r.value == reply.value.policyId)
      ensures metrics.Now() == old(metrics.Now()).(pdp := latency)
    {
      var resource := UnknownResource;
      if HasPrefix(req.path, "/api/balance") {
        resource := BalanceResource;
      } else if HasPrefix(req.path, "/api/transfer") {
        resource := TransferResource;
      } else if HasPrefix(req.path, "/api/audit-logs") {
        resource := AuditLogsResource;
      }
      var action := Read;
      if req.method_ == "POST" || req.method_ == "PUT" || req.method_ == "DELETE" {
        action := Create;
      }
      var subject := "role:" + claims.role;
      var reply := ask(PolicyQuestion(claims.tenantId, subject, action, resource));
      var allow, policyId, status := CheckAccess(reply);
      metrics.RecordPDPOverhead(latency);
      if !allow {
        return Stopped(status.value);
      }
      return Passed(policyId);
    }
  }
}
