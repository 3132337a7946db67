/**
 * The database as an object that its clients change statement by statement. Its log of steps is
 * what the theorems on runs speak of: the object is always in the state that its log leads to.
 */
module Postgres {
  import opened Common
  import opened Database
  import opened LedgerInvariants
  import opened NonInterference

  /** hash_audit_record, BEFORE INSERT on audit_logs; none where it raises an exception. */
  method HashChainTrigger(srv: Server, s: Settings, visible: seq<Row<AuditData>>, new_: Row<AuditData>) returns (row: Option<Row<AuditData>>)
    ensures row == HashAuditRecord(srv, s, visible, new_)
  {
    var auditSecret := if s.secret.Text? then s.secret.text else "";
    if auditSecret == "" {
      return None;
    }
    var lastBlockHash := "";
    if visible == [] {
      lastBlockHash := Genesis();
    } else {
      lastBlockHash := Newest(visible).data.blockHash;
    }
    var linked := new_.(data := new_.data.(prevHash := lastBlockHash));
    var concatText := linked.data.timestamp + "|" + linked.data.actor + "|" + linked.tenant + "|" + linked.data.action + "|"
      + linked.data.resource + "|" + (if linked.data.details.None? then "{}" else srv.detailsText(linked.data.details.value)) + "|"
      + linked.data.prevHash;
    assert concatText == ConcatText(srv, linked);
    row := Some(linked.(data := linked.data.(blockHash := srv.hmacHex(concatText, auditSecret))));
  }

  lemma {:induction false} AuditInsertIff(srv: Server, w: World, rid: nat, tx: Tx)
    requires rid in w.requests && !w.requests[rid].Logs?
    ensures AuditInsert(srv, w, rid, tx).Some? <==>
      && srv.castUuid(w.requests[rid].tenant).Some? && tx.local.secret.Text? && tx.local.secret.text != ""
      && RlsContext(srv, tx.local) == Only(srv.castUuid(w.requests[rid].tenant).value)
  {
  }

  lemma {:induction false} AuditStep(srv: Server, w: World, c: nat, rid: nat, row: Option<Row<AuditData>>)
    requires Enabled(w, Exec(c, rid, Audit)) && row == AuditInsert(srv, w, rid, w.conns[c].tx.value)
    ensures var conn, v := w.conns[c], Next(srv, w, Exec(c, rid, Audit));
      && v.requests == w.requests && v.status == w.status && v.txRows == w.txRows && v.replies == w.replies && v.nextId == w.nextId + 1
      && v.auditRows == (if row.Some? then w.auditRows + [row.value] else w.auditRows)
      && v.conns == w.conns[c := conn.(tx := Some(conn.tx.value.(pc := if row.Some? then Audited else Failed)))]
  {
  }

  class Cluster {
    const srv: Server
    var conns: map<nat, Conn>
    var requests: map<nat, Request>
    var status: map<nat, TxStatus>
    var txRows: seq<Row<TxData>>
    var auditRows: seq<Row<AuditData>>
    var nextId: nat
    var replies: map<nat, Outcome>
    ghost var log: seq<Step>

    function State(): World
      reads this
    {
      World(conns, requests, status, txRows, auditRows, nextId, replies)
    }

    ghost predicate Valid()
      reads this
    {
      State() == Run(srv, INITIAL, log) && Database.Valid(srv, INITIAL, log)
    }

    constructor (srv: Server)
      ensures Valid() && log == [] && this.srv == srv
    {
      this.srv := srv;
      conns, requests, status, txRows, auditRows, nextId, replies := map[], map[], map[], [], [], 1, map[];
      log := [];
    }

    /** Database/sql opens a connection when no idle one is at hand. */
    method Connect(c: nat)
      requires Valid() && c !in conns
      modifies this
      ensures Valid() && log == old(log) + [Open(c)] && conns == old(conns)[c := conns[c]] && Idle(State(), c)
      ensures requests == old(requests) && status == old(status) && replies == old(replies) && txRows == old(txRows)
    {
      RunSnoc(srv, log, Open(c));
      log := log + [Open(c)];
      conns := conns[c := Conn(Settings(Unset, Unset), None)];
    }

    /** Both settings made empty, for the session, on whichever idle connection the pool hands out. */
    method ResetContext(c: nat)
      requires Valid() && Idle(State(), c)
      modifies this
      ensures Valid() && log == old(log) + [Reset(c)] && conns == old(conns)[c := conns[c]] && Idle(State(), c)
      ensures requests == old(requests) && status == old(status) && replies == old(replies) && txRows == old(txRows)
    {
      RunSnoc(srv, log, Reset(c));
      log := log + [Reset(c)];
      conns := conns[c := Conn(Settings(Text(""), Text("")), None)];
    }

    method BeginTx(c: nat, rid: nat, request: Request, now: string)
      requires Valid() && Idle(State(), c) && rid !in requests
      modifies this
      ensures Valid() && log == old(log) + [Begin(c, rid, request, now)]
      ensures Runs(State(), c, rid) && conns[c].tx.value.pc.Begun? && requests[rid] == request
      ensures requests == old(requests)[rid := request] && conns == old(conns)[c := conns[c]]
      ensures status == old(status)[rid := InProgress] && txRows == old(txRows)
    {
      RunSnoc(srv, log, Begin(c, rid, request, now));
      log := log + [Begin(c, rid, request, now)];
      conns := conns[c := conns[c].(tx := Some(Tx(rid, now, conns[c].session, Begun, Nothing)))];
      requests := requests[rid := request];
      status := status[rid := InProgress];
    }

    /** The transaction on `c` is still that of `rid`; only it has changed among the connections. */
    twostate predicate Continues(c: nat, rid: nat, s: Statement)
      reads this
    {
      && Valid() && log == old(log) + [Exec(c, rid, s)] && requests == old(requests)
      && Runs(State(), c, rid) && conns == old(conns)[c := conns[c]] && status == old(status)
    }

    /** The connection breaks while a statement is on its way. */
    method LoseConnection(c: nat, rid: nat)
      requires Valid() && Enabled(State(), Exec(c, rid, Lost))
      modifies this
      ensures Continues(c, rid, Lost) && txRows == old(txRows) && conns[c].tx.value == old(conns[c].tx.value).(pc := Failed)
    {
      RunSnoc(srv, log, Exec(c, rid, Lost));
      log := log + [Exec(c, rid, Lost)];
      conns := conns[c := conns[c].(tx := Some(conns[c].tx.value.(pc := Failed)))];
    }

    method SetTenantContext(c: nat, rid: nat, tenantId: string, lost: bool) returns (ok: bool)
      requires Valid() && Enabled(State(), Exec(c, rid, SetTenant)) && tenantId == requests[rid].tenant
      modifies this
      ensures Continues(c, rid, if lost then Lost else SetTenant) && txRows == old(txRows)
      ensures ok == !lost && conns[c].tx.value.pc == if ok then TenantSet else Failed
    {
      if lost {
        LoseConnection(c, rid);
        return false;
      }
      RunSnoc(srv, log, Exec(c, rid, SetTenant));
      log := log + [Exec(c, rid, SetTenant)];
      var tx := conns[c].tx.value;
      conns := conns[c := conns[c].(tx := Some(tx.(local := tx.local.(tenant := Text(tenantId)), pc := TenantSet)))];
      return true;
    }

    method SetSecretContext(c: nat, rid: nat, secret: string, lost: bool) returns (ok: bool)
      requires Valid() && Enabled(State(), Exec(c, rid, SetSecret)) && secret == srv.auditSecret
      modifies this
      ensures Continues(c, rid, if lost then Lost else SetSecret) && txRows == old(txRows)
      ensures ok == !lost && conns[c].tx.value.pc == if ok then SecretSet else Failed
    {
      if lost {
        LoseConnection(c, rid);
        return false;
      }
      RunSnoc(srv, log, Exec(c, rid, SetSecret));
      log := log + [Exec(c, rid, SetSecret)];
      var tx := conns[c].tx.value;
      conns := conns[c := conns[c].(tx := Some(tx.(local := tx.local.(secret := Text(secret)), pc := SecretSet)))];
      return true;
    }

    /** INSERT INTO transactions ... RETURNING id: the column's type, the policy and the primary key may refuse it. */
    method InsertTransaction(c: nat, rid: nat, tenantId: string, amount: real, description: string, uuid: string, lost: bool)
      returns (id: Option<string>)
      requires Valid() && Enabled(State(), Exec(c, rid, Work(uuid))) && requests[rid].Transfer?
      requires tenantId == requests[rid].tenant && amount == requests[rid].amount && description == requests[rid].description
      modifies this
      ensures Continues(c, rid, if lost then Lost else Work(uuid))
      ensures id.Some? ==> conns[c].tx.value.pc.Worked? && conns[c].tx.value.outcome == Inserted(id.value) && id.value == uuid
      ensures id.None? ==> conns[c].tx.value.pc.Failed?
      ensures id.Some? <==>
        && !lost && srv.castUuid(tenantId).Some? && Cents(amount).Some? && !old(IdTaken(txRows, status, uuid))
        && old(RlsContext(srv, conns[c].tx.value.local)) == Only(srv.castUuid(tenantId).value)
    {
      if lost {
        LoseConnection(c, rid);
        return None;
      }
      RunSnoc(srv, log, Exec(c, rid, Work(uuid)));
      log := log + [Exec(c, rid, Work(uuid))];
      var tx := conns[c].tx.value;
      var tenantCell, amountCell := srv.castUuid(tenantId), Cents(amount);
      if tenantCell.Some? && amountCell.Some? {
        var withCheck := RlsContext(srv, tx.local) == Only(tenantCell.value);
        if withCheck && !IdTaken(txRows, status, uuid) {
          txRows := txRows + [Row(rid, tenantCell.value, TxData(uuid, amountCell.value, description))];
          conns := conns[c := conns[c].(tx := Some(tx.(pc := Worked, outcome := Inserted(uuid))))];
          return Some(uuid);
        }
      }
      conns := conns[c := conns[c].(tx := Some(tx.(pc := Failed)))];
      return None;
    }

    /** SELECT COALESCE(SUM(amount), 0) FROM transactions, over the rows the policy lets through. */
    method QueryBalance(c: nat, rid: nat, lost: bool) returns (balance: Option<int>)
      requires Valid() && Enabled(State(), Exec(c, rid, Work(""))) && requests[rid].Balance?
      modifies this
      ensures Continues(c, rid, if lost then Lost else Work(""))
      ensures balance.Some? ==> conns[c].tx.value.pc.Worked? && conns[c].tx.value.outcome == Sum(balance.value)
      ensures balance.None? ==> conns[c].tx.value.pc.Failed?
      ensures balance.Some? <==> !lost && !old(RlsContext(srv, conns[c].tx.value.local)).BadTenant?
    {
      if lost {
        LoseConnection(c, rid);
        return None;
      }
      RunSnoc(srv, log, Exec(c, rid, Work("")));
      log := log + [Exec(c, rid, Work(""))];
      var tx := conns[c].tx.value;
      var context := RlsContext(srv, tx.local);
      if context.BadTenant? {
        conns := conns[c := conns[c].(tx := Some(tx.(pc := Failed)))];
        return None;
      }
      var sum := SumCents(Query(txRows, status, rid, context));
      conns := conns[c := conns[c].(tx := Some(tx.(pc := Worked, outcome := Sum(sum))))];
      return Some(sum);
    }

    /** SELECT ... FROM audit_logs ORDER BY id ASC; rows are stored in the order of their ids. */
    method QueryLogs(c: nat, rid: nat, lost: bool) returns (rows: Option<seq<Row<AuditData>>>)
      requires Valid() && Enabled(State(), Exec(c, rid, Work(""))) && requests[rid].Logs?
      modifies this
      ensures Continues(c, rid, if lost then Lost else Work(""))
      ensures rows.Some? ==> conns[c].tx.value.pc.Worked? && conns[c].tx.value.outcome == Outcome.Rows(rows.value)
      ensures rows.None? ==> conns[c].tx.value.pc.Failed?
      ensures rows.Some? <==> !lost && !old(RlsContext(srv, conns[c].tx.value.local)).BadTenant?
    {
      if lost {
        LoseConnection(c, rid);
        return None;
      }
      RunSnoc(srv, log, Exec(c, rid, Work("")));
      log := log + [Exec(c, rid, Work(""))];
      var tx := conns[c].tx.value;
      var context := RlsContext(srv, tx.local);
      if context.BadTenant? {
        conns := conns[c := conns[c].(tx := Some(tx.(pc := Failed)))];
        return None;
      }
      var seen := Query(auditRows, status, rid, context);
      conns := conns[c := conns[c].(tx := Some(tx.(pc := Worked, outcome := Outcome.Rows(seen))))];
      return Some(seen);
    }

    /** The row that an insert adds, once the policy has let it through and the trigger has filled it in. */
    method EvaluateAudit(rid: nat, tx: Tx, actor: string, tenantId: string, action: string, resource: string, details: Details)
      returns (row: Option<Row<AuditData>>)
      requires rid in requests && !requests[rid].Logs? && tenantId == requests[rid].tenant
      requires Unhashed(rid, requests[rid], "", 0, "", tx.outcome).data == AuditData(0, "", actor, action, resource, Some(details), "", "")
      ensures row == AuditInsert(srv, State(), rid, tx)
    {
      var context, cell := RlsContext(srv, tx.local), srv.castUuid(tenantId);
      if cell.None? || context != Only(cell.value) {
        return None;
      }
      var new_ := Row(rid, cell.value, AuditData(nextId, tx.now, actor, action, resource, Some(details), "", ""));
      row := HashChainTrigger(srv, tx.local, Query(auditRows, status, rid, context), new_);
    }

    /** The sequence is drawn from even if the insert is refused. */
    method StoreAudit(c: nat, rid: nat, row: Option<Row<AuditData>>, lost: bool) returns (ok: bool)
      requires Valid() && Enabled(State(), Exec(c, rid, Audit)) && row == AuditInsert(srv, State(), rid, conns[c].tx.value)
      modifies this
      ensures Continues(c, rid, if lost then Lost else Audit)
      ensures conns[c].tx.value.outcome == old(conns[c].tx.value.outcome) && txRows == old(txRows)
      ensures conns[c].tx.value.pc == if ok then Audited else Failed
      ensures ok <==> !lost && row.Some?
    {
      if lost {
        LoseConnection(c, rid);
        return false;
      }
      RunSnoc(srv, log, Exec(c, rid, Audit));
      AuditStep(srv, State(), c, rid, row);
      log := log + [Exec(c, rid, Audit)];
      nextId := nextId + 1;
      ok := row.Some?;
      if ok {
        auditRows := auditRows + [row.value];
      }
      conns := conns[c := conns[c].(tx := Some(conns[c].tx.value.(pc := if ok then Audited else Failed)))];
    }

    /** INSERT INTO audit_logs */
    method InsertAudit(c: nat, rid: nat, actor: string, tenantId: string, action: string, resource: string, details: Details, lost: bool)
      returns (ok: bool)
      requires Valid() && Enabled(State(), Exec(c, rid, Audit)) && tenantId == requests[rid].tenant
      requires Unhashed(rid, requests[rid], "", 0, "", conns[c].tx.value.outcome).data
            == AuditData(0, "", actor, action, resource, Some(details), "", "")
      modifies this
      ensures Continues(c, rid, if lost then Lost else Audit)
      ensures conns[c].tx.value.outcome == old(conns[c].tx.value.outcome) && txRows == old(txRows)
      ensures conns[c].tx.value.pc == if ok then Audited else Failed
      ensures ok <==>
        && !lost && srv.castUuid(tenantId).Some?
        && old(conns[c].tx.value.local.secret.Text? && conns[c].tx.value.local.secret.text != "")
        && old(RlsContext(srv, conns[c].tx.value.local)) == Only(srv.castUuid(tenantId).value)
    {
      AuditInsertIff(srv, State(), rid, conns[c].tx.value);
      var row := EvaluateAudit(rid, conns[c].tx.value, actor, tenantId, action, resource, details);
      ok := StoreAudit(c, rid, row, lost);
    }

    /** A commit may be lost on its way, or done with only its acknowledgement lost. */
    method CommitTx(c: nat, rid: nat, delivered: bool, acknowledged: bool) returns (ok: bool)
      requires Valid() && Enabled(State(), Exec(c, rid, Commit(acknowledged)))
      modifies this
      ensures Valid() && log == old(log) + [Exec(c, rid, if delivered then Commit(acknowledged) else Lost)]
      ensures requests == old(requests) && c in conns && conns == old(conns)[c := conns[c]]
      ensures delivered ==> Idle(State(), c) && rid in status && status[rid] == Committed
      ensures !delivered ==> Runs(State(), c, rid) && conns[c].tx.value.pc.Failed?
      ensures ok == (delivered && acknowledged)
      ensures ok ==> rid in replies && replies[rid] == old(conns[c].tx.value.outcome)
      ensures !delivered ==> status == old(status)
      ensures txRows == old(txRows)
    {
      if !delivered {
        LoseConnection(c, rid);
        return false;
      }
      RunSnoc(srv, log, Exec(c, rid, Commit(acknowledged)));
      log := log + [Exec(c, rid, Commit(acknowledged))];
      var tx := conns[c].tx.value;
      conns := conns[c := Conn(AfterTx(conns[c].session, tx.local), None)];
      status := status[rid := Committed];
      if acknowledged {
        replies := replies[rid := tx.outcome];
      }
      return acknowledged;
    }

    method RollbackTx(c: nat, rid: nat)
      requires Valid() && Enabled(State(), Exec(c, rid, Rollback))
      modifies this
      ensures Valid() && log == old(log) + [Exec(c, rid, Rollback)]
      ensures requests == old(requests) && conns == old(conns)[c := conns[c]] && Idle(State(), c)
      ensures replies == old(replies) && status == old(status)[rid := Aborted] && txRows == old(txRows)
    {
      RunSnoc(srv, log, Exec(c, rid, Rollback));
      log := log + [Exec(c, rid, Rollback)];
      var tx := conns[c].tx.value;
      conns := conns[c := Conn(AfterTx(conns[c].session, tx.local), None)];
      status := status[rid := Aborted];
    }
  }
}
