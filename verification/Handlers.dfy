/** The handlers of the gateway: tenant and subject from the claims only, one call of the database, one count. */
module Handlers {
  import opened Common
  import opened Gateway
  import DB = Database
  import DbClient
  import Idp
  import Metrics

  class ApiHandlers {
    const client: DbClient.Client
    const metrics: Metrics.MetricsStore

    constructor (client: DbClient.Client, metrics: Metrics.MetricsStore)
      ensures this.client == client && this.metrics == metrics
    {
      this.client, this.metrics := client, metrics;
    }

    /** The handler answers a request that reached the database as `rid` with this code, and records it: a count, and the times of a success. */
    twostate predicate Answered(rid: nat, handler: string, code: int, rlsTime: int, dbTime: int)
      reads client.db, metrics
    {
      && client.db.Valid() && DbClient.Effect(client.db.srv, old(client.db.State()), client.db.State(), rid)
      && (code == 500 ==> metrics.Now() == old(metrics.Now()).(requests := Metrics.Counted(old(metrics.requestsTotal), (handler, 500))))
      && (code != 500 ==> metrics.Now() == old(metrics.Now()).(
            requests := Metrics.Counted(old(metrics.requestsTotal), (handler, code)), rlsContext := rlsTime, wormExec := dbTime))
    }

    /** Nothing has reached the database, and nothing is recorded. */
    twostate predicate Untouched()
      reads client.db, metrics
    {
      client.db.log == old(client.db.log) && client.db.State() == old(client.db.State()) && metrics.Now() == old(metrics.Now())
    }

    /** This amount has been booked for the tenant of the claims, and for nobody else, and their subject is on its ledger for it. */
    twostate predicate Booked(claims: Idp.Claims, amount: real, description: string, rid: nat, uuid: string)
      reads client.db
    {
      && DB.StatusOf(client.db.status, rid) == DB.Committed && DB.Cents(amount).Some?
      && (forall tenant :: DB.BalanceOf(client.db.State(), tenant)
            == old(DB.BalanceOf(client.db.State(), tenant)) + if client.IsTenant(claims.tenantId, tenant) then DB.Cents(amount).value else 0)
      && (forall tenant :: client.IsTenant(claims.tenantId, tenant) ==>
            && DbClient.OnAccount(client.db.State(), rid, tenant, uuid, DB.Cents(amount).value, description)
            && DbClient.OnLedger(client.db.State(), rid, tenant, claims.sub, "CREATE_TRANSACTION", DB.TransferDetails(amount, description, uuid)))
    }

    method CreateTransferHandler(claims: Option<Idp.Claims>, req: ApiRequest, c: nat, rid: nat, now: string, uuid: string,
                                 e: DbClient.Weather, rlsTime: int, dbTime: int)
      returns (status: Status, tx: Option<DbClient.Transaction>)
      requires client.db.Valid() && client.Ready(c, rid, e) && !DB.IdAwaited(client.db.txRows, client.db.status, uuid)
      modifies client.db, metrics
      ensures claims.None? ==> status == Unauthorized && Untouched()
      ensures claims.Some? && (req.body.None? || req.body.value.0 <= 0.0) ==> status == BadRequest && Untouched()
      ensures claims.Some? && req.body.Some? && req.body.value.0 > 0.0 ==>
        && status in {Created, InternalError} && Answered(rid, "/api/transfer", if status == Created then 201 else 500, rlsTime, dbTime)
        && (status == Created <==>
              && e.lostAt >= 6 && e.acknowledged && client.MayTransfer(claims.value.tenantId, req.body.value.0)
              && !old(DB.IdTaken(client.db.txRows, client.db.status, uuid)))
        && (status == InternalError && e.acknowledged ==> DB.StatusOf(client.db.status, rid) != DB.Committed)
      ensures status == Created ==>
        && tx == Some(DbClient.Transaction(uuid, claims.value.tenantId, req.body.value.0, req.body.value.1))
        && Booked(claims.value, req.body.value.0, req.body.value.1, rid, uuid)
    {
      tx := None;
      if claims.None? {
        return Unauthorized, None;
      }
      if req.body.None? {
        return BadRequest, None;
      }
      var (amount, description) := req.body.value;
      if amount <= 0.0 {
        return BadRequest, None;
      }
      var r := client.CreateTransaction(claims.value.tenantId, amount, description, claims.value.sub, c, rid, now, uuid, e);
      if r.Refused? {
        metrics.IncrementRequestCounter("/api/transfer", 500);
        return InternalError, None;
      }
      metrics.IncrementRequestCounter("/api/transfer", 201);
      metrics.RecordDbLatency(rlsTime, dbTime);
      return Created, Some(r.value);
    }

    method GetBalanceHandler(claims: Option<Idp.Claims>, c: nat, rid: nat, now: string, e: DbClient.Weather, rlsTime: int, dbTime: int)
      returns (status: Status, balance: int)
      requires client.db.Valid() && client.Ready(c, rid, e)
      modifies client.db, metrics
      ensures claims.None? ==> status == Unauthorized && Untouched()
      ensures claims.Some? ==>
        && status in {OK, InternalError} && Answered(rid, "/api/balance", if status == OK then 200 else 500, rlsTime, dbTime)
        && (status == OK ==> forall tenant :: client.IsTenant(claims.value.tenantId, tenant) ==>
              && balance == DB.BalanceOf(old(client.db.State()), tenant)
              && DbClient.OnLedger(client.db.State(), rid, tenant, claims.value.sub, "GET_BALANCE", DB.NoDetails))
        && (status == OK <==>
              && e.lostAt >= 6 && e.acknowledged && claims.value.tenantId != ""
              && client.db.srv.castUuid(claims.value.tenantId).Some? && client.db.srv.auditSecret != "")
    {
      if claims.None? {
        return Unauthorized, 0;
      }
      var r := client.GetBalance(claims.value.tenantId, claims.value.sub, c, rid, now, e);
      if r.Refused? {
        metrics.IncrementRequestCounter("/api/balance", 500);
        return InternalError, 0;
      }
      metrics.IncrementRequestCounter("/api/balance", 200);
      metrics.RecordDbLatency(rlsTime, dbTime);
      return OK, r.value;
    }

    method GetAuditLogsHandler(claims: Option<Idp.Claims>, c: nat, rid: nat, now: string, e: DbClient.Weather, rlsTime: int, dbTime: int)
      returns (status: Status, logs: seq<DbClient.AuditLog>)
      requires client.db.Valid() && client.Ready(c, rid, e)
      modifies client.db, metrics
      ensures claims.None? ==> status == Unauthorized && Untouched()
      ensures claims.Some? ==>
        && status in {OK, InternalError} && Answered(rid, "/api/audit-logs", if status == OK then 200 else 500, rlsTime, dbTime)
        && (status == OK <==>
              && e.lostAt !in {0, 1, 2, 3, 5} && e.acknowledged
              && (claims.value.tenantId == "" || client.db.srv.castUuid(claims.value.tenantId).Some?))
        && (status == OK ==> forall tenant :: client.IsTenant(claims.value.tenantId, tenant) ==>
              client.AreLogs(logs, DB.Ledger(old(client.db.State()), tenant)))
    {
      if claims.None? {
        return Unauthorized, [];
      }
      var r := client.GetAuditLogs(claims.value.tenantId, c, rid, now, e);
      if r.Refused? {
        metrics.IncrementRequestCounter("/api/audit-logs", 500);
        return InternalError, [];
      }
      metrics.IncrementRequestCounter("/api/audit-logs", 200);
      metrics.RecordDbLatency(rlsTime, dbTime);
      return OK, r.value;
    }
  }
}
