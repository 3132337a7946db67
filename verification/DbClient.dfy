/** The gateway's database client: begin, set the context, insert or read, audit, commit, reset. */
module DbClient {
  import opened Common
  import opened Database
  import opened LedgerInvariants
  import opened HashChain
  import opened BalanceBounds
  import opened NonInterference
  import opened Postgres

  datatype Transaction = Transaction(id: string, tenantId: string, amount: real, description: string)

  datatype AuditLog = AuditLog(
    id: nat, timestamp: string, actorId: string, tenantId: string, action: string, resource: string, details: string,
    prevHash: string, blockHash: string)

  /**
   * What a call meets on its way: the statement during which the connection breaks (0 is Begin, and
   * 6 or more none), whether the commit's acknowledgement arrives, the other connection that the pool
   * hands out for the reset, and whether the reset gets through at all (its error is ignored).
   */
  datatype Weather = Weather(lostAt: nat, acknowledged: bool, spare: nat, resets: bool)

  /** Where a call fails. */
  datatype Failure = BeginFailed | ContextFailed | QueryFailed | AuditFailed | CommitFailed

  datatype Reply<+T> = Done(value: T) | Refused(why: Failure)

  predicate Quiet(log: seq<Step>, n: nat) {
    forall i :: n <= i < |log| ==> !IsCommit(log[i])
  }

  /** Everyone's committed rows are as they were, or they are those after the commit of `rid` alone. */
  ghost predicate Effect(srv: Server, w: World, w': World, rid: nat) {
    if StatusOf(w'.status, rid) != Committed then SameCommitted(w, w')
    else rid in w'.requests && forall tenant :: BalanceOf(w', tenant) == BalanceOf(w, tenant) + Worth(srv, w', rid, tenant)
  }

  lemma {:induction false} ValidPrefix(srv: Server, log: seq<Step>, n: nat)
    requires Database.Valid(srv, INITIAL, log) && n < |log|
    ensures Enabled(Run(srv, INITIAL, log[..n]), log[n]) && Run(srv, INITIAL, log[..n + 1]) == Next(srv, Run(srv, INITIAL, log[..n]), log[n])
  {
    var before := log[..|log| - 1];
    if n == |log| - 1 {
      assert log[..n + 1] == log;
    } else {
      ValidPrefix(srv, before, n);
      assert before[..n] == log[..n] && before[..n + 1] == log[..n + 1];
    }
  }

  /** A log whose only new commit is at `m`. */
  lemma {:induction false} OneCommit(srv: Server, log: seq<Step>, n: nat, m: nat)
    requires n <= m < |log| && Quiet(log[..m], n) && IsCommit(log[m]) && Quiet(log, m + 1)
    requires Database.Valid(srv, INITIAL, log)
    ensures log[m].rid in Run(srv, INITIAL, log[..m]).requests
    ensures forall tenant ::
      BalanceOf(Run(srv, INITIAL, log), tenant)
      == BalanceOf(Run(srv, INITIAL, log[..n]), tenant) + Worth(srv, Run(srv, INITIAL, log[..m]), log[m].rid, tenant)
  {
    var w := Run(srv, INITIAL, log[..m]);
    QuietRun(srv, log[..m], n);
    assert log[..m][..n] == log[..n];
    QuietRun(srv, log, m + 1);
    ValidPrefix(srv, log, m);
    InvRun(srv, log[..m]);
    forall tenant ensures BalanceOf(Next(srv, w, log[m]), tenant) == BalanceOf(w, tenant) + Worth(srv, w, log[m].rid, tenant) {
      CommitMovesBalance(srv, w, log[m].c, log[m].rid, log[m].statement.acknowledged, tenant);
    }
  }

  /** Since `start` the log has no commit. */
  predicate QuietSince(start: seq<Step>, log: seq<Step>) {
    start <= log && Quiet(log, |start|)
  }

  lemma {:induction false} SameSince(srv: Server, start: seq<Step>, log: seq<Step>)
    requires QuietSince(start, log)
    ensures SameCommitted(Run(srv, INITIAL, start), Run(srv, INITIAL, log))
  {
    QuietRun(srv, log, |start|);
    assert log[..|start|] == start;
  }

  lemma {:induction false} EffectAfterQuiet(srv: Server, start: seq<Step>, log: seq<Step>, w': World, rid: nat)
    requires QuietSince(start, log) && Effect(srv, Run(srv, INITIAL, log), w', rid)
    ensures Effect(srv, Run(srv, INITIAL, start), w', rid)
  {
    SameSince(srv, start, log);
  }

  /** A read answers what was committed before its call began. */
  lemma {:induction false} ReadReply(srv: Server, start: seq<Step>, log: seq<Step>, c: nat, rid: nat, tenant: string)
    requires QuietSince(start, log) && Database.Valid(srv, INITIAL, log + [Exec(c, rid, Work(""))])
    requires var w := Run(srv, INITIAL, log); Owned(srv, w, rid, tenant) && !w.requests[rid].Transfer? && w.requests[rid].tenant != ""
    ensures var w, v := Run(srv, INITIAL, start), Run(srv, INITIAL, log + [Exec(c, rid, Work(""))]);
      && c in v.conns && v.conns[c].tx.Some?
      && v.conns[c].tx.value.outcome
         == if Run(srv, INITIAL, log).requests[rid].Balance? then Sum(BalanceOf(w, tenant)) else Outcome.Rows(Ledger(w, tenant))
  {
    RunSnoc(srv, log, Exec(c, rid, Work("")));
    InvRun(srv, log);
    SameSince(srv, start, log);
    ReadsAnswer(srv, Run(srv, INITIAL, log), c, rid, "", tenant);
  }

  lemma {:induction false} NoRowsYet(srv: Server, log: seq<Step>, rid: nat)
    requires rid !in Run(srv, INITIAL, log).requests
    ensures forall r :: r in Run(srv, INITIAL, log).txRows ==> r.xid != rid
  {
    InvRun(srv, log);
    assert forall r :: r in Run(srv, INITIAL, log).txRows ==> TxRowOk(srv, Run(srv, INITIAL, log).requests, r);
  }

  /** From the second setting on a transaction runs under the tenant's name and the gateway's secret. */
  lemma {:induction false} ContextIsSet(srv: Server, log: seq<Step>, c: nat, rid: nat)
    requires Runs(Run(srv, INITIAL, log), c, rid)
    ensures var w := Run(srv, INITIAL, log); var tx := w.conns[c].tx.value;
      tx.pc in {SecretSet, Worked, Audited} ==> tx.local == Settings(Text(w.requests[rid].tenant), Text(srv.auditSecret))
  {
    InvRun(srv, log);
    assert ConnOk(srv, Run(srv, INITIAL, log), Run(srv, INITIAL, log).conns[c]);
  }

  lemma {:induction false} RowInserted(srv: Server, log: seq<Step>, c: nat, rid: nat, uuid: string)
    requires var w := Run(srv, INITIAL, log);
      Runs(w, c, rid) && w.requests[rid].Transfer? && w.conns[c].tx.value.pc.Worked? && w.conns[c].tx.value.outcome == Inserted(uuid)
    ensures var w := Run(srv, INITIAL, log); FindRow(w.txRows, rid).Some? && FindRow(w.txRows, rid).value.data.id == uuid
  {
    InvRun(srv, log);
    assert ProgressOk(Run(srv, INITIAL, log), Run(srv, INITIAL, log).conns[c].tx.value);
  }

  lemma {:induction false} LedgerInOrder(srv: Server, log: seq<Step>, tenant: string)
    ensures Increasing(Ledger(Run(srv, INITIAL, log), tenant))
  {
    InvRun(srv, log);
    SelectIncreasing(Run(srv, INITIAL, log).auditRows, Run(srv, INITIAL, log).status, -1, tenant);
  }

  /** A new transaction takes no id. */
  lemma {:induction false} SameIds(rows: seq<Row<TxData>>, status: map<nat, TxStatus>, rid: nat, id: string)
    requires forall r :: r in rows ==> r.xid != rid
    ensures IdTaken(rows, status[rid := InProgress], id) <==> IdTaken(rows, status, id)
    ensures IdAwaited(rows, status[rid := InProgress], id) <==> IdAwaited(rows, status, id)
  {
    assert forall i :: 0 <= i < |rows| ==> rows[i] in rows;
  }

  /** What a committed transaction has left in the ledger of its tenant: its row, under these names. */
  ghost predicate OnLedger(w: World, rid: nat, tenant: string, sub: string, action: string, details: Details) {
    exists a :: a in Ledger(w, tenant) && a.xid == rid && a.data.actor == UserUuid(sub) && a.data.action == action
                && a.data.resource == "transactions" && a.data.details == Some(details)
  }

  /** And in its transactions. */
  ghost predicate OnAccount(w: World, rid: nat, tenant: string, id: string, cents: int, description: string) {
    exists t :: t in Select(w.txRows, w.status, -1, tenant) && t.xid == rid && t.data == TxData(id, cents, description)
  }

  lemma {:induction false} CommittedIsOnLedger(srv: Server, log: seq<Step>, rid: nat, tenant: string) returns (id: string)
    requires var w := Run(srv, INITIAL, log);
      && rid in w.requests && StatusOf(w.status, rid) == Committed && !w.requests[rid].Logs?
      && srv.castUuid(w.requests[rid].tenant) == Some(tenant)
    ensures var w := Run(srv, INITIAL, log); var q := w.requests[rid];
      && (q.Balance? ==> OnLedger(w, rid, tenant, q.sub, "GET_BALANCE", NoDetails))
      && (q.Transfer? ==>
            && OnLedger(w, rid, tenant, q.sub, "CREATE_TRANSACTION", TransferDetails(q.amount, q.description, id))
            && Cents(q.amount).Some? && OnAccount(w, rid, tenant, id, Cents(q.amount).value, q.description)
            && FindRow(w.txRows, rid).Some? && FindRow(w.txRows, rid).value.data.id == id)
  {
    InvRun(srv, log);
    var w := Run(srv, INITIAL, log);
    assert Paired(w, rid);
    var a := FindRow(w.auditRows, rid).value;
    FindIsSound(w.auditRows, rid);
    assert AuditRowOk(srv, w.requests, a);
    SelectedRows(w.auditRows, w.status, -1, tenant, a);
    id := "";
    if w.requests[rid].Transfer? {
      var t := FindRow(w.txRows, rid).value;
      FindIsSound(w.txRows, rid);
      assert TxRowOk(srv, w.requests, t);
      SelectedRows(w.txRows, w.status, -1, tenant, t);
      id := t.data.id;
    }
  }

  class Client {
    const db: Cluster
    const auditSecret: string

    constructor (db: Cluster)
      ensures this.db == db && auditSecret == db.srv.auditSecret
    {
      this.db := db;
      auditSecret := db.srv.auditSecret;
    }

    /** What a call may count on: its connection is idle, its number is new, and the pool has another connection to give. */
    predicate Ready(c: nat, rid: nat, e: Weather)
      reads db
    {
      && auditSecret == db.srv.auditSecret
      && Idle(db.State(), c) && rid !in db.requests && rid !in db.status && e.spare != c && (e.spare in db.conns ==> Idle(db.State(), e.spare))
    }

    /** The reset of both settings on another connection, if it gets through. */
    method ResetElsewhere(e: Weather)
      requires db.Valid() && (e.spare in db.conns ==> Idle(db.State(), e.spare))
      modifies db
      ensures db.Valid() && QuietSince(old(db.log), db.log)
      ensures db.requests == old(db.requests) && db.status == old(db.status) && db.replies == old(db.replies)
      ensures db.txRows == old(db.txRows)
      ensures forall c :: c in old(db.conns) && c != e.spare ==> c in db.conns && db.conns[c] == old(db.conns[c])
    {
      if e.resets {
        if e.spare !in db.conns {
          db.Connect(e.spare);
        }
        db.ResetContext(e.spare);
      }
    }

    /** The deferred function of every call that fails: reset, then roll back what has not been committed. */
    method CleanUp(c: nat, rid: nat, e: Weather)
      requires db.Valid() && e.spare != c && (e.spare in db.conns ==> Idle(db.State(), e.spare))
      requires (Runs(db.State(), c, rid) && db.conns[c].tx.value.pc.Failed?) || Idle(db.State(), c)
      modifies db
      ensures db.Valid() && QuietSince(old(db.log), db.log) && Idle(db.State(), c)
      ensures db.requests == old(db.requests) && db.txRows == old(db.txRows)
      ensures db.status == if old(Idle(db.State(), c)) then old(db.status) else old(db.status)[rid := Aborted]
    {
      ResetElsewhere(e);
      if db.conns[c].tx.Some? {
        db.RollbackTx(c, rid);
      }
    }

    /** The call's transaction is under way on `c`, and nothing has been committed since `start`. */
    ghost predicate UnderWay(start: seq<Step>, c: nat, rid: nat, request: Request, e: Weather, pc: Pc)
      reads db
    {
      && db.Valid() && QuietSince(start, db.log) && auditSecret == db.srv.auditSecret
      && Runs(db.State(), c, rid) && db.conns[c].tx.value.pc == pc && db.requests[rid] == request
      && StatusOf(db.status, rid) == InProgress
      && e.spare != c && (e.spare in db.conns ==> Idle(db.State(), e.spare))
    }

    /** What a call that fails before its commit leaves: nothing that anyone finds. */
    method Abandon(c: nat, rid: nat, e: Weather, ghost request: Request, ghost start: seq<Step>)
      requires UnderWay(start, c, rid, request, e, Failed)
      modifies db
      ensures db.Valid() && Idle(db.State(), c) && StatusOf(db.status, rid) != Committed
      ensures Effect(db.srv, Run(db.srv, INITIAL, start), db.State(), rid)
    {
      CleanUp(c, rid, e);
      SameSince(db.srv, start, db.log);
    }

    /** The tenant and the secret, each for this transaction only. */
    method SetContext(c: nat, rid: nat, request: Request, e: Weather, ghost start: seq<Step>) returns (ok: bool)
      requires UnderWay(start, c, rid, request, e, Begun)
      modifies db
      ensures UnderWay(start, c, rid, request, e, if ok then SecretSet else Failed)
      ensures db.txRows == old(db.txRows) && db.status == old(db.status)
      ensures ok <==> e.lostAt != 1 && e.lostAt != 2
    {
      ok := db.SetTenantContext(c, rid, request.tenant, e.lostAt == 1);
      if ok {
        ok := db.SetSecretContext(c, rid, auditSecret, e.lostAt == 2);
      }
    }

    /** What every call begins with. */
    method Prepare(c: nat, rid: nat, request: Request, now: string, e: Weather) returns (ok: bool)
      requires db.Valid() && Ready(c, rid, e)
      modifies db
      ensures UnderWay(old(db.log), c, rid, request, e, if ok then SecretSet else Failed)
      ensures db.txRows == old(db.txRows) && db.status == old(db.status)[rid := InProgress]
      ensures ok <==> e.lostAt != 1 && e.lostAt != 2
    {
      ghost var start := db.log;
      db.BeginTx(c, rid, request, now);
      ok := SetContext(c, rid, request, e, start);
    }

    /** Commit, then the reset; or the clean-up of a commit that reports an error. */
    method Finish(c: nat, rid: nat, e: Weather, ghost request: Request, ghost start: seq<Step>) returns (ok: bool)
      requires UnderWay(start, c, rid, request, e, if request.Logs? then Worked else Audited)
      modifies db
      ensures db.Valid() && Idle(db.State(), c) && Effect(db.srv, Run(db.srv, INITIAL, start), db.State(), rid)
      ensures rid in db.requests && db.requests[rid] == request && db.txRows == old(db.txRows)
      ensures ok == (e.lostAt != 5 && e.acknowledged)
      ensures ok ==> StatusOf(db.status, rid) == Committed
      ensures !ok && e.acknowledged ==> StatusOf(db.status, rid) != Committed
    {
      ghost var served := db.log;
      var delivered := e.lostAt != 5;
      ok := db.CommitTx(c, rid, delivered, e.acknowledged);
      if ok {
        ResetElsewhere(e);
      } else {
        CleanUp(c, rid, e);
      }
      assert db.log[..|served|] == served;
      if delivered {
        OneCommit(db.srv, db.log, |served|, |served|);
      } else {
        SameSince(db.srv, served, db.log);
      }
      EffectAfterQuiet(db.srv, start, served, db.State(), rid);
    }

    /** The audit row of a call, of the same transaction. */
    method WriteAudit(c: nat, rid: nat, actorSub: string, tenantId: string, action: string, details: Details, e: Weather,
                      ghost request: Request, ghost start: seq<Step>)
      returns (ok: bool)
      requires UnderWay(start, c, rid, request, e, Worked) && !request.Logs? && tenantId == request.tenant
      requires Unhashed(rid, request, "", 0, "", db.conns[c].tx.value.outcome).data
            == AuditData(0, "", UserUuid(actorSub), action, "transactions", Some(details), "", "")
      modifies db
      ensures UnderWay(start, c, rid, request, e, if ok then Audited else Failed)
      ensures db.txRows == old(db.txRows)
      ensures ok <==> e.lostAt != 4 && tenantId != "" && db.srv.castUuid(tenantId).Some? && db.srv.auditSecret != ""
    {
      ContextIsSet(db.srv, db.log, c, rid);
      ok := db.InsertAudit(c, rid, UserUuid(actorSub), tenantId, action, "transactions", details, e.lostAt == 4);
    }

    // ----- CreateTransaction

    /** A name that stands for a tenant, a secret, and an amount that fits its column. */
    predicate MayTransfer(tenantId: string, amount: real) {
      && tenantId != "" && db.srv.castUuid(tenantId).Some? && db.srv.auditSecret != ""
      && -9_999_999_999_999.995 < amount < 9_999_999_999_999.995
    }

    /** The two inserts of a transfer. */
    method Record(tenantId: string, amount: real, description: string, actorSub: string, c: nat, rid: nat, uuid: string, e: Weather,
                  ghost start: seq<Step>)
      returns (r: Reply<Transaction>)
      requires UnderWay(start, c, rid, Transfer(tenantId, amount, description, actorSub), e, SecretSet)
      requires !IdAwaited(db.txRows, db.status, uuid)
      modifies db
      ensures UnderWay(start, c, rid, Transfer(tenantId, amount, description, actorSub), e, if r.Done? then Audited else Failed)
      ensures r.Done? ==> r.value == Transaction(uuid, tenantId, amount, description)
      ensures r.Done? <==> e.lostAt !in {3, 4} && MayTransfer(tenantId, amount) && !old(IdTaken(db.txRows, db.status, uuid))
      ensures r.Done? ==> FindRow(db.txRows, rid).Some? && FindRow(db.txRows, rid).value.data.id == uuid
    {
      ContextIsSet(db.srv, db.log, c, rid);
      CentsFit(amount);
      var id := db.InsertTransaction(c, rid, tenantId, amount, description, uuid, e.lostAt == 3);
      if id.None? {
        return Refused(QueryFailed);
      }
      RowInserted(db.srv, db.log, c, rid, uuid);
      var t := Transaction(id.value, tenantId, amount, description);
      var ok := WriteAudit(c, rid, actorSub, tenantId, "CREATE_TRANSACTION", TransferDetails(amount, description, t.id), e,
                           Transfer(tenantId, amount, description, actorSub), start);
      r := if ok then Done(t) else Refused(AuditFailed);
    }

    /** What a transfer that has been committed leaves. */
    lemma TransferDone(tenantId: string, amount: real, description: string, actorSub: string, rid: nat, uuid: string)
      requires db.Valid() && rid in db.requests && db.requests[rid] == Transfer(tenantId, amount, description, actorSub)
      requires StatusOf(db.status, rid) == Committed && FindRow(db.txRows, rid).Some? && FindRow(db.txRows, rid).value.data.id == uuid
      ensures forall tenant :: IsTenant(tenantId, tenant) ==>
        && Cents(amount).Some? && OnAccount(db.State(), rid, tenant, uuid, Cents(amount).value, description)
        && OnLedger(db.State(), rid, tenant, actorSub, "CREATE_TRANSACTION", TransferDetails(amount, description, uuid))
    {
      forall tenant | IsTenant(tenantId, tenant)
        ensures && Cents(amount).Some? && OnAccount(db.State(), rid, tenant, uuid, Cents(amount).value, description)
                && OnLedger(db.State(), rid, tenant, actorSub, "CREATE_TRANSACTION", TransferDetails(amount, description, uuid))
      {
        var id := CommittedIsOnLedger(db.srv, db.log, rid, tenant);
      }
    }

    /** While an open transaction holds the id drawn, the insert waits; the call is the one that follows. */
    method CreateTransaction(
        tenantId: string, amount: real, description: string, actorSub: string,
        c: nat, rid: nat, now: string, uuid: string, e: Weather)
      returns (r: Reply<Transaction>)
      requires db.Valid() && Ready(c, rid, e) && !IdAwaited(db.txRows, db.status, uuid)
      modifies db
      ensures db.Valid() && Idle(db.State(), c) && Effect(db.srv, old(db.State()), db.State(), rid)
      ensures r.Done? ==> StatusOf(db.status, rid) == Committed && r.value == Transaction(uuid, tenantId, amount, description)
      ensures r.Refused? && e.acknowledged ==> StatusOf(db.status, rid) != Committed
      ensures r.Done? <==> e.lostAt >= 6 && e.acknowledged && MayTransfer(tenantId, amount) && !old(IdTaken(db.txRows, db.status, uuid))
      ensures r.Done? ==> Cents(amount).Some? && forall tenant ::
        BalanceOf(db.State(), tenant) == old(BalanceOf(db.State(), tenant)) + if IsTenant(tenantId, tenant) then Cents(amount).value else 0
      ensures r.Done? ==> forall tenant :: IsTenant(tenantId, tenant) ==>
        && OnAccount(db.State(), rid, tenant, uuid, Cents(amount).value, description)
        && OnLedger(db.State(), rid, tenant, actorSub, "CREATE_TRANSACTION", TransferDetails(amount, description, uuid))
    {
      if e.lostAt == 0 {
        return Refused(BeginFailed);
      }
      ghost var start, request := db.log, Transfer(tenantId, amount, description, actorSub);
      NoRowsYet(db.srv, db.log, rid);
      SameIds(db.txRows, db.status, rid, uuid);
      CentsFit(amount);
      var ok := Prepare(c, rid, Transfer(tenantId, amount, description, actorSub), now, e);
      r := Refused(ContextFailed);
      if ok {
        assert !IdAwaited(db.txRows, db.status, uuid);
        r := Record(tenantId, amount, description, actorSub, c, rid, uuid, e, start);
      }
      if r.Refused? {
        Abandon(c, rid, e, request, start);
        return;
      }
      ok := Finish(c, rid, e, request, start);
      if !ok {
        r := Refused(CommitFailed);
      } else {
        TransferDone(tenantId, amount, description, actorSub, rid, uuid);
      }
    }

    // ----- GetBalance

    /** What the tenant's name stands for, when it stands for a tenant at all. */
    predicate IsTenant(tenantId: string, tenant: string) {
      tenantId != "" && db.srv.castUuid(tenantId) == Some(tenant)
    }

    method ReadBalance(tenantId: string, actorSub: string, c: nat, rid: nat, e: Weather, ghost start: seq<Step>) returns (r: Reply<int>)
      requires UnderWay(start, c, rid, Balance(tenantId, actorSub), e, SecretSet)
      modifies db
      ensures UnderWay(start, c, rid, Balance(tenantId, actorSub), e, if r.Done? then Worked else Failed)
      ensures r.Done? ==> db.conns[c].tx.value.outcome == Sum(r.value)
      ensures r.Done? ==> forall tenant :: IsTenant(tenantId, tenant) ==> r.value == BalanceOf(Run(db.srv, INITIAL, start), tenant)
      ensures r.Done? <==> e.lostAt != 3 && (tenantId == "" || db.srv.castUuid(tenantId).Some?)
    {
      ContextIsSet(db.srv, db.log, c, rid);
      ghost var prepared := db.log;
      var balance := db.QueryBalance(c, rid, e.lostAt == 3);
      if balance.None? {
        return Refused(QueryFailed);
      }
      forall tenant | IsTenant(tenantId, tenant) ensures balance.value == BalanceOf(Run(db.srv, INITIAL, start), tenant) {
        ReadReply(db.srv, start, prepared, c, rid, tenant);
      }
      r := Done(balance.value);
    }

    lemma ReadDone(tenantId: string, actorSub: string, rid: nat)
      requires db.Valid() && rid in db.requests && db.requests[rid] == Balance(tenantId, actorSub) && StatusOf(db.status, rid) == Committed
      ensures forall tenant :: IsTenant(tenantId, tenant) ==> OnLedger(db.State(), rid, tenant, actorSub, "GET_BALANCE", NoDetails)
    {
      forall tenant | IsTenant(tenantId, tenant) ensures OnLedger(db.State(), rid, tenant, actorSub, "GET_BALANCE", NoDetails) {
        var id := CommittedIsOnLedger(db.srv, db.log, rid, tenant);
      }
    }

    method GetBalance(tenantId: string, actorSub: string, c: nat, rid: nat, now: string, e: Weather) returns (r: Reply<int>)
      requires db.Valid() && Ready(c, rid, e)
      modifies db
      ensures db.Valid() && Idle(db.State(), c) && Effect(db.srv, old(db.State()), db.State(), rid)
      ensures r.Done? ==> forall tenant :: IsTenant(tenantId, tenant) ==>
        r.value == BalanceOf(old(db.State()), tenant) && OnLedger(db.State(), rid, tenant, actorSub, "GET_BALANCE", NoDetails)
      ensures r.Done? ==> StatusOf(db.status, rid) == Committed
      ensures r.Refused? && e.acknowledged ==> StatusOf(db.status, rid) != Committed
      ensures r.Done? <==>
        e.lostAt >= 6 && e.acknowledged && tenantId != "" && db.srv.castUuid(tenantId).Some? && db.srv.auditSecret != ""
    {
      if e.lostAt == 0 {
        return Refused(BeginFailed);
      }
      ghost var start, request := db.log, Balance(tenantId, actorSub);
      var ok := Prepare(c, rid, Balance(tenantId, actorSub), now, e);
      r := Refused(ContextFailed);
      if ok {
        r := ReadBalance(tenantId, actorSub, c, rid, e, start);
      }
      if r.Done? {
        ok := WriteAudit(c, rid, actorSub, tenantId, "GET_BALANCE", NoDetails, e, request, start);
        if !ok {
          r := Refused(AuditFailed);
        }
      }
      if r.Refused? {
        Abandon(c, rid, e, request, start);
        return;
      }
      ok := Finish(c, rid, e, request, start);
      if !ok {
        r := Refused(CommitFailed);
      } else {
        ReadDone(tenantId, actorSub, rid);
      }
    }

    // ----- GetAuditLogs

    function ToLog(r: Row<AuditData>): AuditLog {
      AuditLog(r.data.id, r.data.timestamp, r.data.actor, r.tenant, r.data.action, r.data.resource,
               if r.data.details.None? then "" else db.srv.detailsText(r.data.details.value), r.data.prevHash, r.data.blockHash)
    }

    /** One log for each row, column by column, in the order of their ids. */
    ghost predicate AreLogs(logs: seq<AuditLog>, rows: seq<Row<AuditData>>) {
      && |logs| == |rows| && (forall i :: 0 <= i < |rows| ==> IsLog(logs[i], rows[i]))
      && forall i, j :: 0 <= i < j < |logs| ==> logs[i].id < logs[j].id
    }

    predicate IsLog(l: AuditLog, r: Row<AuditData>) {
      && l.id == r.data.id && l.timestamp == r.data.timestamp && l.actorId == r.data.actor && l.tenantId == r.tenant
      && l.action == r.data.action && l.resource == r.data.resource && l.prevHash == r.data.prevHash && l.blockHash == r.data.blockHash
      && l.details == match r.data.details case None => "" case Some(d) => db.srv.detailsText(d)
    }

    method ReadLogs(tenantId: string, c: nat, rid: nat, e: Weather, ghost start: seq<Step>) returns (r: Reply<seq<AuditLog>>)
      requires UnderWay(start, c, rid, Logs(tenantId), e, SecretSet)
      modifies db
      ensures UnderWay(start, c, rid, Logs(tenantId), e, if r.Done? then Worked else Failed)
      ensures r.Done? ==> forall tenant :: IsTenant(tenantId, tenant) ==> AreLogs(r.value, Ledger(Run(db.srv, INITIAL, start), tenant))
      ensures r.Done? <==> e.lostAt != 3 && (tenantId == "" || db.srv.castUuid(tenantId).Some?)
    {
      ContextIsSet(db.srv, db.log, c, rid);
      ghost var prepared := db.log;
      var rows := db.QueryLogs(c, rid, e.lostAt == 3);
      if rows.None? {
        return Refused(QueryFailed);
      }
      forall tenant | IsTenant(tenantId, tenant)
        ensures rows.value == Ledger(Run(db.srv, INITIAL, start), tenant) && Increasing(rows.value)
      {
        ReadReply(db.srv, start, prepared, c, rid, tenant);
        LedgerInOrder(db.srv, start, tenant);
      }
      var logs := [];
      for i := 0 to |rows.value|
        invariant |logs| == i && forall k :: 0 <= k < i ==> logs[k] == ToLog(rows.value[k])
      {
        logs := logs + [ToLog(rows.value[i])];
      }
      r := Done(logs);
    }

    method GetAuditLogs(tenantId: string, c: nat, rid: nat, now: string, e: Weather) returns (r: Reply<seq<AuditLog>>)
      requires db.Valid() && Ready(c, rid, e)
      modifies db
      ensures db.Valid() && Idle(db.State(), c) && Effect(db.srv, old(db.State()), db.State(), rid)
      ensures r.Done? ==> forall tenant :: IsTenant(tenantId, tenant) ==> AreLogs(r.value, Ledger(old(db.State()), tenant))
      ensures r.Done? ==> StatusOf(db.status, rid) == Committed
      ensures r.Refused? && e.acknowledged ==> StatusOf(db.status, rid) != Committed
      ensures r.Done? <==> e.lostAt !in {0, 1, 2, 3, 5} && e.acknowledged && (tenantId == "" || db.srv.castUuid(tenantId).Some?)
    {
      if e.lostAt == 0 {
        return Refused(BeginFailed);
      }
      ghost var start, request := db.log, Logs(tenantId);
      var ok := Prepare(c, rid, Logs(tenantId), now, e);
      r := Refused(ContextFailed);
      if ok {
        r := ReadLogs(tenantId, c, rid, e, start);
      }
      if r.Refused? {
        Abandon(c, rid, e, request, start);
        return;
      }
      ok := Finish(c, rid, e, request, start);
      if !ok {
        r := Refused(CommitFailed);
      }
    }
  }
}
