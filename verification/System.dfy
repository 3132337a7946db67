/**
 * Client, IdP, gateway and database together: the gateway begins a transaction only for a request
 * that it serves, with the tenant and subject of the token. Every row of every ledger then has the
 * one client behind it that its tenant stands for.
 */
module System {
  import opened Common
  import opened Protocol
  import opened Agreement
  import Jwk
  import Idp
  import Gateway
  import DB = Database
  import LI = LedgerInvariants
  import BB = BalanceBounds

  datatype Setup = Setup(srv: DB.Server, h: Jwk.Hash, enforceZiti: bool, failOpen: bool, start: int)

  /** `origin` notes which API call a database request came from; `fronts` and `backs` are the steps taken so far. */
  datatype Whole = Whole(p: State, w: DB.World, origin: map<nat, nat>, fronts: seq<Action>, backs: seq<DB.Step>)

  datatype Event =
    | Front(action: Action)
    | Back(step: DB.Step)
    | Handle(j: nat, c: nat, rid: nat, now: string)

  function ChecksOf(u: Setup): Checks {
    RealChecks(u.h, u.enforceZiti, u.failOpen)
  }

  function Beginning(u: Setup): Whole {
    Whole(Start(u.start), DB.INITIAL, map[], [], [])
  }

  /** The handler of a served request starts its transaction, once. */
  predicate MayHandle(s: Whole, j: nat, c: nat, rid: nat, now: string) {
    && j < |s.p.apiCalls| && s.p.apiCalls[j].pc.Serving? && j !in s.origin.Values
    && DB.Enabled(s.w, DB.Begin(c, rid, s.p.apiCalls[j].pc.request, now))
  }

  function Happen(u: Setup, s: Whole, e: Event): Whole {
    match e
    case Front(a) => s.(p := Next(ChecksOf(u), s.p, a), fronts := s.fronts + [a])
    case Back(step) =>
      if step.Begin? then s else s.(w := DB.Next(u.srv, s.w, step), backs := s.backs + [step])
    case Handle(j, c, rid, now) =>
      if !MayHandle(s, j, c, rid, now) then s
      else
        var step := DB.Begin(c, rid, s.p.apiCalls[j].pc.request, now);
        s.(w := DB.Next(u.srv, s.w, step), backs := s.backs + [step], origin := s.origin[rid := j])
  }

  function History(u: Setup, events: seq<Event>): Whole {
    if events == [] then Beginning(u) else Happen(u, History(u, events[..|events| - 1]), events[|events| - 1])
  }

  // ----- what every event keeps

  /** The two halves are runs of their own. */
  predicate Halves(u: Setup, s: Whole) {
    s.p == Run(ChecksOf(u), Start(u.start), s.fronts) && s.w == DB.Run(u.srv, DB.INITIAL, s.backs)
  }

  /** Every request at the database is that of a call being served, and no two are of the same call. */
  ghost predicate OriginsOk(s: Whole) {
    && (forall rid :: rid in s.w.requests ==>
          rid in s.origin && s.origin[rid] < |s.p.apiCalls|
          && s.p.apiCalls[s.origin[rid]].pc.Serving? && s.p.apiCalls[s.origin[rid]].pc.request == s.w.requests[rid])
    && (forall rid, rid' :: rid in s.origin && rid' in s.origin && rid != rid' ==> s.origin[rid] != s.origin[rid'])
  }

  lemma {:induction false} FrontSnoc(u: Setup, fronts: seq<Action>, a: Action)
    ensures Run(ChecksOf(u), Start(u.start), fronts + [a]) == Next(ChecksOf(u), Run(ChecksOf(u), Start(u.start), fronts), a)
  {
    assert (fronts + [a])[..|fronts|] == fronts;
  }

  lemma {:induction false} BackSnoc(srv: DB.Server, backs: seq<DB.Step>, step: DB.Step)
    ensures DB.Run(srv, DB.INITIAL, backs + [step]) == DB.Next(srv, DB.Run(srv, DB.INITIAL, backs), step)
  {
    assert (backs + [step])[..|backs|] == backs;
  }

  /** A call that is being served stays so. */
  lemma {:induction false} ServingStays(c: Checks, s: State, a: Action, j: nat)
    requires j < |s.apiCalls| && s.apiCalls[j].pc.Serving?
    ensures j < |Next(c, s, a).apiCalls| && Next(c, s, a).apiCalls[j] == s.apiCalls[j]
  {
    if a.ApiStep? {
      if a.j < |s.apiCalls| {
        ApiShape(c, s, a.j, a.keyKnown, a.policy, a.readAt);
      }
    } else {
      ApiUntouched(c, s, a);
    }
  }

  lemma {:induction false} HalvesStep(u: Setup, s: Whole, e: Event)
    requires Halves(u, s)
    ensures Halves(u, Happen(u, s, e))
  {
    match e
    case Front(a) => FrontSnoc(u, s.fronts, a);
    case Back(step) => BackSnoc(u.srv, s.backs, step);
    case Handle(j, c, rid, now) =>
      if MayHandle(s, j, c, rid, now) {
        BackSnoc(u.srv, s.backs, DB.Begin(c, rid, s.p.apiCalls[j].pc.request, now));
      }
  }

  lemma {:induction false} OriginsStep(u: Setup, s: Whole, e: Event)
    requires OriginsOk(s) && LI.PoolInv(u.srv, s.w)
    ensures OriginsOk(Happen(u, s, e))
  {
    match e
    case Front(a) =>
      forall rid | rid in s.w.requests ensures s.origin[rid] < |Next(ChecksOf(u), s.p, a).apiCalls|
        && Next(ChecksOf(u), s.p, a).apiCalls[s.origin[rid]] == s.p.apiCalls[s.origin[rid]]
      {
        ServingStays(ChecksOf(u), s.p, a, s.origin[rid]);
      }
    case Back(step) => BB.RequestsStep(u.srv, s.w, step);
    case Handle(j, c, rid, now) =>
      if MayHandle(s, j, c, rid, now) {
        BB.RequestsStep(u.srv, s.w, DB.Begin(c, rid, s.p.apiCalls[j].pc.request, now));
      }
  }

  lemma {:induction false} InvHistory(u: Setup, events: seq<Event>)
    ensures Halves(u, History(u, events)) && OriginsOk(History(u, events)) && LI.Inv(u.srv, History(u, events).w)
  {
    if events == [] {
    } else {
      var before := History(u, events[..|events| - 1]);
      InvHistory(u, events[..|events| - 1]);
      HalvesStep(u, before, events[|events| - 1]);
      OriginsStep(u, before, events[|events| - 1]);
    }
    LI.InvRun(u.srv, History(u, events).backs);
  }

  // ----- attribution

  /** Casting to UUID keeps the tenants that the IdP hands out, which are in canonical form. */
  predicate KeepsTenants(srv: DB.Server, client: string) {
    srv.castUuid(Idp.TenantOf(client)) == Some(Idp.TenantOf(client))
  }

  ghost predicate CanonicalTenants(srv: DB.Server) {
    forall client :: Idp.Registered(client) ==> KeepsTenants(srv, client)
  }

  /** What a served call asks of the database is what its path and body say, in the name of the token's subject and tenant. */
  lemma {:induction false} ServedAsAsked(u: Setup, events: seq<Event>, j: nat)
    requires j < |History(u, events).p.apiCalls| && History(u, events).p.apiCalls[j].pc.Serving?
    ensures var call := History(u, events).p.apiCalls[j]; var req, claims, q := call.req, call.pc.claims, call.pc.request;
      && Idp.Registered(claims.sub) && claims.tenantId == Idp.TenantOf(claims.sub) && q.tenant == claims.tenantId
      && (!q.Logs? ==> q.sub == claims.sub)
      && (q.Transfer? <==> req.path == "/api/transfer") && (q.Balance? <==> req.path == "/api/balance")
      && (q.Logs? <==> req.path == "/api/audit-logs")
      && (q.Transfer? ==> req.body == Some((q.amount, q.description)) && q.amount > 0.0)
  {
    InvHistory(u, events);
    ServedRequestsAgree(u.h, u.enforceZiti, u.failOpen, u.start, History(u, events).fronts, j);
  }

  /** The served call behind a request at the database. */
  lemma {:induction false} RequestHasClient(u: Setup, events: seq<Event>, rid: nat)
    requires rid in History(u, events).w.requests
    ensures var s := History(u, events);
      && rid in s.origin && s.origin[rid] < |s.p.apiCalls| && s.p.apiCalls[s.origin[rid]].pc.Serving?
      && var call, q := s.p.apiCalls[s.origin[rid]], s.w.requests[rid];
         && Idp.Registered(call.pc.claims.sub) && q.tenant == Idp.TenantOf(call.pc.claims.sub)
         && (!q.Logs? ==> q.sub == call.pc.claims.sub)
         && (q.Transfer? <==> call.req.path == "/api/transfer") && (q.Balance? <==> call.req.path == "/api/balance")
         && (q.Transfer? ==> call.req.body == Some((q.amount, q.description)) && q.amount > 0.0)
  {
    InvHistory(u, events);
    ServedAsAsked(u, events, History(u, events).origin[rid]);
  }

  /** Whose user is whose. */
  lemma UsersOfClients(sub: string)
    ensures DB.UserUuid(sub) == "aaaaaaaa-aaaa-aaaa-aaaa-aaaaaaaaaaaa" <==> sub == "client-alice"
    ensures DB.UserUuid(sub) == "bbbbbbbb-bbbb-bbbb-bbbb-bbbbbbbbbbbb" <==> sub == "client-bob"
    ensures DB.UserUuid(sub) == "eeeeeeee-eeee-eeee-eeee-eeeeeeeeeeee" <==> sub == "client-evil"
    ensures DB.UserUuid(sub) == "00000000-0000-0000-0000-000000000000" <==> !Idp.Registered(sub)
  {
    assert DB.UserUuid(sub)[0] in {'a', 'b', 'e', '0'};
  }

  /** The three clients have three users, none of them the guest's. */
  lemma UsersIdentifyClients(a: string, b: string)
    requires Idp.Registered(a) && Idp.Registered(b) && DB.UserUuid(a) == DB.UserUuid(b)
    ensures a == b && DB.UserUuid(a) != "00000000-0000-0000-0000-000000000000"
  {
    assert DB.UserUuid(a)[0] == DB.UserUuid(b)[0] && DB.UserUuid(a)[0] != '0';
  }

  /** The row was caused by this served call, and by no client but the one its tenant stands for. */
  ghost predicate CausedBy(s: Whole, xid: nat, tenant: string) {
    && xid in s.origin && s.origin[xid] < |s.p.apiCalls| && s.p.apiCalls[s.origin[xid]].pc.Serving?
    && var client := s.p.apiCalls[s.origin[xid]].pc.claims.sub;
       && Idp.Registered(client) && tenant == Idp.TenantOf(client)
       && forall x :: Idp.Registered(x) && Idp.TenantOf(x) == tenant ==> x == client
  }

  lemma {:induction false} OnlyClient(u: Setup, events: seq<Event>, xid: nat, tenant: string)
    requires CanonicalTenants(u.srv)
    requires var s := History(u, events); xid in s.w.requests && u.srv.castUuid(s.w.requests[xid].tenant) == Some(tenant)
    ensures CausedBy(History(u, events), xid, tenant)
  {
    RequestHasClient(u, events, xid);
    var s := History(u, events);
    var client := s.p.apiCalls[s.origin[xid]].pc.claims.sub;
    assert KeepsTenants(u.srv, client);
    forall x | Idp.Registered(x) && Idp.TenantOf(x) == tenant ensures x == client {
      Idp.TenantsIdentifyClients(x, client);
    }
  }

  /** The call behind a row, once it is known to have one. */
  function CallOf(s: Whole, xid: nat): ApiCall
    requires xid in s.origin && s.origin[xid] < |s.p.apiCalls|
  {
    s.p.apiCalls[s.origin[xid]]
  }

  /** An audit row says what its call asked for, and names the client's user and nobody else's. */
  ghost predicate SaysWhatWasAsked(call: ApiCall, r: DB.Row<DB.AuditData>)
    requires call.pc.Serving?
  {
    && r.data.actor == DB.UserUuid(call.pc.claims.sub)
    && (forall x :: Idp.Registered(x) && DB.UserUuid(x) == r.data.actor ==> x == call.pc.claims.sub)
    && r.data.resource == "transactions"
    && ((&& call.req.path == "/api/balance" && r.data.action == "GET_BALANCE" && r.data.details == Some(DB.NoDetails))
        || (&& call.req.path == "/api/transfer" && r.data.action == "CREATE_TRANSACTION" && call.req.body.Some?
            && exists id :: r.data.details == Some(DB.TransferDetails(call.req.body.value.0, call.req.body.value.1, id))))
  }

  /** A transaction is of the amount, to the nearest cent, and has the description that its call sent. */
  predicate BooksWhatWasAsked(call: ApiCall, r: DB.Row<DB.TxData>) {
    && call.req.path == "/api/transfer" && call.req.body.Some? && call.req.body.value.0 > 0.0
    && DB.Cents(call.req.body.value.0) == Some(r.data.cents) && r.data.cents >= 0
    && -0.005 <= r.data.cents as real / 100.0 - call.req.body.value.0 <= 0.005
    && r.data.description == call.req.body.value.1
  }

  lemma {:induction false} AuditRowSays(u: Setup, events: seq<Event>, r: DB.Row<DB.AuditData>)
    requires CanonicalTenants(u.srv) && r in History(u, events).w.auditRows
    ensures var s := History(u, events); CausedBy(s, r.xid, r.tenant) && SaysWhatWasAsked(CallOf(s, r.xid), r)
  {
    InvHistory(u, events);
    assert LI.AuditRowOk(u.srv, History(u, events).w.requests, r);
    RequestHasClient(u, events, r.xid);
    OnlyClient(u, events, r.xid, r.tenant);
    var client := CallOf(History(u, events), r.xid).pc.claims.sub;
    forall x | Idp.Registered(x) && DB.UserUuid(x) == DB.UserUuid(client) ensures x == client {
      UsersIdentifyClients(x, client);
    }
    assert r.data.details.value.TransferDetails? ==>
      r.data.details == Some(DB.TransferDetails(r.data.details.value.amount, r.data.details.value.description, r.data.details.value.txId));
  }

  lemma {:induction false} TxRowBooks(u: Setup, events: seq<Event>, r: DB.Row<DB.TxData>)
    requires CanonicalTenants(u.srv) && r in History(u, events).w.txRows
    ensures var s := History(u, events); CausedBy(s, r.xid, r.tenant) && BooksWhatWasAsked(CallOf(s, r.xid), r)
  {
    InvHistory(u, events);
    var s := History(u, events);
    assert LI.TxRowOk(u.srv, s.w.requests, r);
    RequestHasClient(u, events, r.xid);
    OnlyClient(u, events, r.xid, r.tenant);
    BB.ZeroCents(s.w.requests[r.xid].amount);
    BB.CentsFit(s.w.requests[r.xid].amount);
  }

  /**
   * Every audit row and every transaction of the gateway, committed or not: the one registered client
   * whose tenant it is made the request that wrote it; the audit row names that client's user and says
   * what was asked, and a transaction books the amount that was sent.
   */
  lemma {:induction false} RowsHaveTheirClient(u: Setup, events: seq<Event>)
    requires CanonicalTenants(u.srv)
    ensures var s := History(u, events);
      forall r :: r in s.w.auditRows ==> CausedBy(s, r.xid, r.tenant) && SaysWhatWasAsked(CallOf(s, r.xid), r)
    ensures var s := History(u, events);
      forall r :: r in s.w.txRows ==> CausedBy(s, r.xid, r.tenant) && BooksWhatWasAsked(CallOf(s, r.xid), r)
  {
    var s := History(u, events);
    forall r | r in s.w.auditRows ensures CausedBy(s, r.xid, r.tenant) && SaysWhatWasAsked(CallOf(s, r.xid), r) {
      AuditRowSays(u, events, r);
    }
    forall r | r in s.w.txRows ensures CausedBy(s, r.xid, r.tenant) && BooksWhatWasAsked(CallOf(s, r.xid), r) {
      TxRowBooks(u, events, r);
    }
  }

  /** No balance is ever negative, whatever is sent to the two servers. */
  lemma {:induction false} BalancesNeverNegative(u: Setup, events: seq<Event>, tenant: string)
    ensures DB.BalanceOf(History(u, events).w, tenant) >= 0
  {
    InvHistory(u, events);
    var w := History(u, events).w;
    var ts := DB.Select(w.txRows, w.status, -1, tenant);
    forall r | r in ts ensures LI.TxRowOk(u.srv, w.requests, r) && w.requests[r.xid].amount > 0.0 {
      LI.SelectedRows(w.txRows, w.status, -1, tenant, r);
      assert LI.TxRowOk(u.srv, w.requests, r);
      RequestHasClient(u, events, r.xid);
    }
    BB.SumNonNegative(u.srv, w.requests, ts);
  }
}
