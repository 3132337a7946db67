/** What every step of the database keeps, and what follows for pool, rows and their pairing. */
module LedgerInvariants {
  import opened Common
  import opened Database

  // ----- the pool: no tenant survives a transaction

  predicate Clean(s: Setting) {
    s.Unset? || s.text == ""
  }

  /** The local settings of a transaction follow its program counter. */
  predicate LocalsFollow(srv: Server, request: Request, tx: Tx) {
    match tx.pc
    case Begun => Clean(tx.local.tenant) && Clean(tx.local.secret)
    case TenantSet => tx.local.tenant == Text(request.tenant)
    case Failed => true
    case _ => tx.local == Settings(Text(request.tenant), Text(srv.auditSecret))
  }

  predicate ConnOk(srv: Server, w: World, conn: Conn) {
    && Clean(conn.session.tenant) && Clean(conn.session.secret)
    && (conn.tx.Some? ==>
          var tx := conn.tx.value;
          tx.rid in w.requests && StatusOf(w.status, tx.rid) == InProgress && LocalsFollow(srv, w.requests[tx.rid], tx))
  }

  ghost predicate PoolInv(srv: Server, w: World) {
    && w.status.Keys == w.requests.Keys && w.replies.Keys <= w.requests.Keys
    && (forall c :: c in w.conns ==> ConnOk(srv, w, w.conns[c]))
    && (forall c, c', rid :: Runs(w, c, rid) && Runs(w, c', rid) ==> c == c')
  }

  /** The transaction on `c` goes on, with the same request, and nothing but its own state and the tables may change. */
  ghost predicate GoesOn(w: World, w': World, c: nat)
    requires c in w.conns && w.conns[c].tx.Some?
  {
    && w'.requests == w.requests && w'.status == w.status && w'.replies == w.replies
    && c in w'.conns && w'.conns == w.conns[c := w'.conns[c]]
    && w'.conns[c].session == w.conns[c].session && w'.conns[c].tx.Some?
    && var tx, tx' := w.conns[c].tx.value, w'.conns[c].tx.value;
       tx'.rid == tx.rid && tx'.now == tx.now
  }

  lemma {:induction false} WorkShape(srv: Server, w: World, c: nat, rid: nat, uuid: string)
    requires Runs(w, c, rid)
    ensures var w' := DoWork(srv, w, c, rid, uuid);
      && GoesOn(w, w', c) && w'.auditRows == w.auditRows && w'.nextId == w.nextId
      && w'.conns[c].tx.value.local == w.conns[c].tx.value.local
      && (w'.conns[c].tx.value.pc.Failed? || w'.conns[c].tx.value.pc.Worked?)
  {
  }

  lemma {:induction false} AuditShape(srv: Server, w: World, c: nat, rid: nat)
    requires Runs(w, c, rid) && !w.requests[rid].Logs?
    ensures var w' := DoAudit(srv, w, c, rid);
      && GoesOn(w, w', c) && w'.txRows == w.txRows
      && w'.conns[c].tx.value.local == w.conns[c].tx.value.local
      && (w'.conns[c].tx.value.pc.Failed? || w'.conns[c].tx.value.pc.Audited?)
  {
  }

  predicate Ends(statement: Statement) {
    statement.Commit? || statement.Rollback?
  }

  /** What the other statements leave alone. */
  lemma {:induction false} ExecShape(srv: Server, w: World, c: nat, rid: nat, statement: Statement)
    requires Enabled(w, Exec(c, rid, statement)) && !statement.Work? && !statement.Audit?
    ensures var w' := DoStatement(srv, w, c, rid, statement);
      && w'.txRows == w.txRows && w'.auditRows == w.auditRows && w'.nextId == w.nextId && w'.requests == w.requests
      && (!Ends(statement) ==> GoesOn(w, w', c))
      && (Ends(statement) ==>
            && w'.conns == w.conns[c := Conn(AfterTx(w.conns[c].session, w.conns[c].tx.value.local), None)]
            && w'.status == w.status[rid := if statement.Commit? then Committed else Aborted])
  {
  }

  lemma {:induction false} ExecConnOk(srv: Server, w: World, c: nat, rid: nat, statement: Statement)
    requires Enabled(w, Exec(c, rid, statement)) && ConnOk(srv, w, w.conns[c])
    ensures var w' := DoStatement(srv, w, c, rid, statement); c in w'.conns && ConnOk(srv, w', w'.conns[c])
    ensures var w' := DoStatement(srv, w, c, rid, statement);
      && (!Ends(statement) ==> GoesOn(w, w', c))
      && (Ends(statement) ==>
            && w'.requests == w.requests && w'.conns == w.conns[c := w'.conns[c]] && w'.conns[c].tx.None?
            && w'.status == w.status[rid := if statement.Commit? then Committed else Aborted])
  {
    if statement.Work? {
      WorkShape(srv, w, c, rid, statement.uuid);
    } else if statement.Audit? {
      AuditShape(srv, w, c, rid);
    } else {
      ExecShape(srv, w, c, rid, statement);
    }
  }

  lemma {:induction false} PoolInvExec(srv: Server, w: World, c: nat, rid: nat, statement: Statement)
    requires PoolInv(srv, w) && Enabled(w, Exec(c, rid, statement))
    ensures PoolInv(srv, DoStatement(srv, w, c, rid, statement))
  {
    var w' := DoStatement(srv, w, c, rid, statement);
    ExecConnOk(srv, w, c, rid, statement);
    assert Runs(w, c, rid);
    forall d | d in w'.conns ensures ConnOk(srv, w', w'.conns[d]) {
      if d != c {
        assert ConnOk(srv, w, w.conns[d]);
        assert w.conns[d].tx.Some? ==> Runs(w, d, w.conns[d].tx.value.rid);
      }
    }
    forall d, d', r | Runs(w', d, r) && Runs(w', d', r) ensures d == d' {
      assert Runs(w, d, r) && Runs(w, d', r);
    }
  }

  lemma {:induction false} PoolInvStep(srv: Server, w: World, s: Step)
    requires PoolInv(srv, w)
    ensures PoolInv(srv, Next(srv, w, s))
  {
    var w' := Next(srv, w, s);
    if !Enabled(w, s) {
    } else if s.Exec? {
      PoolInvExec(srv, w, s.c, s.rid, s.statement);
    } else {
      forall d | d in w'.conns ensures ConnOk(srv, w', w'.conns[d]) {
        if d in w.conns {
          assert ConnOk(srv, w, w.conns[d]);
        }
      }
      forall d, d', r | Runs(w', d, r) && Runs(w', d', r) ensures d == d' {
        if !(s.Begin? && r == s.rid) {
          assert Runs(w, d, r) && Runs(w, d', r);
        } else {
          assert forall e :: e in w.conns && w.conns[e].tx.Some? ==> ConnOk(srv, w, w.conns[e]);
        }
      }
    }
  }

  lemma {:induction false} PoolInvRun(srv: Server, steps: seq<Step>)
    ensures PoolInv(srv, Run(srv, INITIAL, steps))
  {
    if steps != [] {
      PoolInvRun(srv, steps[..|steps| - 1]);
      PoolInvStep(srv, Run(srv, INITIAL, steps[..|steps| - 1]), steps[|steps| - 1]);
    }
  }

  /** Over every run: a connection that no transaction holds belongs to no tenant. */
  lemma {:induction false} IdleConnectionsHaveNoTenant(srv: Server, steps: seq<Step>, c: nat)
    requires Idle(Run(srv, INITIAL, steps), c)
    ensures RlsContext(srv, Run(srv, INITIAL, steps).conns[c].session) == NoTenant
  {
    PoolInvRun(srv, steps);
    assert ConnOk(srv, Run(srv, INITIAL, steps), Run(srv, INITIAL, steps).conns[c]);
  }

  /** Without a tenant a transaction reads no row and writes none. */
  lemma {:induction false} WithoutTenantNothing(srv: Server, w: World, c: nat, rid: nat, uuid: string)
    requires Runs(w, c, rid) && RlsContext(srv, w.conns[c].tx.value.local) == NoTenant
    ensures var w' := DoWork(srv, w, c, rid, uuid);
      && w'.txRows == w.txRows && w'.auditRows == w.auditRows
      && (w'.conns[c].tx.value.pc.Failed? || w'.conns[c].tx.value.outcome in {Sum(0), Rows([])})
      && (w.requests[rid].Transfer? ==> w'.conns[c].tx.value.pc.Failed?)
    ensures !w.requests[rid].Logs? ==>
      var w' := DoAudit(srv, w, c, rid); w'.txRows == w.txRows && w'.auditRows == w.auditRows && w'.conns[c].tx.value.pc.Failed?
  {
  }

  // ----- the rows and their requests

  /** The row that transaction `xid` wrote, if any. */
  function FindRow<D>(rows: seq<Row<D>>, xid: nat): Option<Row<D>> {
    if rows == [] then None
    else if rows[|rows| - 1].xid == xid then Some(rows[|rows| - 1])
    else FindRow(rows[..|rows| - 1], xid)
  }

  lemma {:induction false} FindAfterAppend<D>(rows: seq<Row<D>>, r: Row<D>, xid: nat)
    ensures FindRow(rows + [r], xid) == if r.xid == xid then Some(r) else FindRow(rows, xid)
  {
    assert (rows + [r])[..|rows|] == rows;
  }

  lemma {:induction false} FindIsSound<D>(rows: seq<Row<D>>, xid: nat)
    ensures FindRow(rows, xid).Some? ==> FindRow(rows, xid).value in rows && FindRow(rows, xid).value.xid == xid
    ensures FindRow(rows, xid).None? ==> forall r :: r in rows ==> r.xid != xid
  {
    if rows != [] {
      FindIsSound(rows[..|rows| - 1], xid);
      assert rows == rows[..|rows| - 1] + [rows[|rows| - 1]];
    }
  }

  /** Each row is the only one of its transaction. */
  predicate OnePerTransaction<D>(rows: seq<Row<D>>) {
    forall i, j :: 0 <= i < j < |rows| ==> rows[i].xid != rows[j].xid
  }

  lemma {:induction false} OnlyRow<D>(rows: seq<Row<D>>, r: Row<D>)
    requires OnePerTransaction(rows) && r in rows
    ensures FindRow(rows, r.xid) == Some(r)
  {
    if rows[|rows| - 1] != r {
      var i :| 0 <= i < |rows| && rows[i] == r;
      assert rows[..|rows| - 1][i] == r;
      OnlyRow(rows[..|rows| - 1], r);
    }
  }

  predicate TxRowOk(srv: Server, requests: map<nat, Request>, r: Row<TxData>) {
    && r.xid in requests
    && var q := requests[r.xid];
       q.Transfer? && srv.castUuid(q.tenant) == Some(r.tenant) && Cents(q.amount) == Some(r.data.cents) && r.data.description == q.description
  }

  predicate AuditRowOk(srv: Server, requests: map<nat, Request>, r: Row<AuditData>) {
    && r.xid in requests
    && var q := requests[r.xid];
       && !q.Logs?
       && srv.castUuid(q.tenant) == Some(r.tenant)
       && r.data.actor == UserUuid(q.sub)
       && r.data.action == (if q.Transfer? then "CREATE_TRANSACTION" else "GET_BALANCE")
       && r.data.resource == "transactions"
       && r.data.details.Some?
       && (q.Balance? ==> r.data.details == Some(NoDetails))
       && (q.Transfer? ==>
             && r.data.details.value.TransferDetails?
             && r.data.details.value.amount == q.amount && r.data.details.value.description == q.description)
       && srv.auditSecret != ""
       && r.data.blockHash == BlockHash(srv, srv.auditSecret, r)
  }

  ghost predicate RowsInv(srv: Server, w: World) {
    && (forall r :: r in w.txRows ==> TxRowOk(srv, w.requests, r))
    && (forall r :: r in w.auditRows ==> AuditRowOk(srv, w.requests, r))
    && (forall i :: 0 <= i < |w.auditRows| ==> w.auditRows[i].data.id < w.nextId)
    && (forall i, j :: 0 <= i < j < |w.auditRows| ==> w.auditRows[i].data.id < w.auditRows[j].data.id)
    && IdsApart(w.txRows, w.status)
  }

  /** No two rows that count have one id. */
  predicate IdsApart(rows: seq<Row<TxData>>, status: map<nat, TxStatus>) {
    forall i, j :: 0 <= i < j < |rows| && rows[i].data.id == rows[j].data.id ==>
      StatusOf(status, rows[i].xid) == Aborted || StatusOf(status, rows[j].xid) == Aborted
  }

  lemma {:induction false} RowsInvWork(srv: Server, w: World, c: nat, rid: nat, uuid: string)
    requires RowsInv(srv, w) && Runs(w, c, rid) && Enabled(w, Exec(c, rid, Work(uuid)))
    ensures RowsInv(srv, DoWork(srv, w, c, rid, uuid))
  {
    var w' := DoWork(srv, w, c, rid, uuid);
    WorkShape(srv, w, c, rid, uuid);
    if w'.txRows != w.txRows {
      forall i | 0 <= i < |w.txRows| && w.txRows[i].data.id == uuid ensures StatusOf(w.status, w.txRows[i].xid) == Aborted {
      }
    }
  }

  /** What an audit insert adds, if it adds anything: the row `r`, linked to the last block it saw. */
  lemma {:induction false} AuditAppends(srv: Server, w: World, c: nat, rid: nat) returns (r: Row<AuditData>)
    requires Runs(w, c, rid) && !w.requests[rid].Logs?
    requires w.conns[c].tx.value.local == Settings(Text(w.requests[rid].tenant), Text(srv.auditSecret))
    ensures var w', tx := DoAudit(srv, w, c, rid), w.conns[c].tx.value;
      && GoesOn(w, w', c) && w'.txRows == w.txRows && w'.nextId == w.nextId + 1
      && ((w'.auditRows == w.auditRows && w'.conns[c].tx.value.pc.Failed?)
          || (&& w'.auditRows == w.auditRows + [r] && w'.conns[c].tx == Some(tx.(pc := Audited))
              && r.xid == rid && AuditRowOk(srv, w.requests, r) && r.data.id == w.nextId && r.data.timestamp == tx.now
              && r.data.prevHash == LastBlockHash(Select(w.auditRows, w.status, rid, r.tenant))
              && r.data.details == Unhashed(rid, w.requests[rid], r.tenant, w.nextId, tx.now, tx.outcome).data.details))
  {
    AuditShape(srv, w, c, rid);
    var w' := DoAudit(srv, w, c, rid);
    if |w'.auditRows| > |w.auditRows| {
      r := w'.auditRows[|w.auditRows|];
    } else {
      r := Row(rid, "", AuditData(0, "", "", "", "", None, "", ""));
    }
  }

  lemma {:induction false} RowsInvAudit(srv: Server, w: World, c: nat, rid: nat)
    requires RowsInv(srv, w) && Runs(w, c, rid) && !w.requests[rid].Logs?
    requires w.conns[c].tx.value.local == Settings(Text(w.requests[rid].tenant), Text(srv.auditSecret))
    ensures RowsInv(srv, DoAudit(srv, w, c, rid))
  {
    var r := AuditAppends(srv, w, c, rid);
  }

  lemma {:induction false} StillApart(rows: seq<Row<TxData>>, status: map<nat, TxStatus>, status': map<nat, TxStatus>)
    requires IdsApart(rows, status)
    requires forall r :: r in rows && StatusOf(status, r.xid) == Aborted ==> StatusOf(status', r.xid) == Aborted
    ensures IdsApart(rows, status')
  {
    forall i | 0 <= i < |rows| ensures rows[i] in rows {
    }
  }

  /** Beginning and ending a transaction revives no aborted row. */
  lemma {:induction false} AbortedStays(srv: Server, w: World, s: Step)
    requires PoolInv(srv, w) && RowsInv(srv, w) && Enabled(w, s)
    requires s.Begin? || (s.Exec? && Ends(s.statement))
    ensures var w' := Next(srv, w, s);
      && w'.txRows == w.txRows && w'.auditRows == w.auditRows && w'.nextId == w.nextId
      && forall r :: r in w.txRows && StatusOf(w.status, r.xid) == Aborted ==> StatusOf(w'.status, r.xid) == Aborted
  {
    assert forall r :: r in w.txRows ==> TxRowOk(srv, w.requests, r);
    if s.Exec? {
      assert ConnOk(srv, w, w.conns[s.c]);
      ExecShape(srv, w, s.c, s.rid, s.statement);
    }
  }

  /** Statements that do not end the transaction. */
  lemma {:induction false} RowsInvGoesOn(srv: Server, w: World, c: nat, rid: nat, statement: Statement)
    requires RowsInv(srv, w) && PoolInv(srv, w) && Enabled(w, Exec(c, rid, statement)) && !Ends(statement)
    ensures RowsInv(srv, DoStatement(srv, w, c, rid, statement))
  {
    assert ConnOk(srv, w, w.conns[c]);
    if statement.Work? {
      RowsInvWork(srv, w, c, rid, statement.uuid);
    } else if statement.Audit? {
      RowsInvAudit(srv, w, c, rid);
    } else {
      ExecShape(srv, w, c, rid, statement);
    }
  }

  /** Transactions that begin or end. */
  lemma {:induction false} RowsInvStatus(srv: Server, w: World, s: Step)
    requires RowsInv(srv, w) && PoolInv(srv, w) && Enabled(w, s) && (s.Begin? || (s.Exec? && Ends(s.statement)))
    ensures RowsInv(srv, Next(srv, w, s))
  {
    AbortedStays(srv, w, s);
    StillApart(w.txRows, w.status, Next(srv, w, s).status);
    if s.Exec? {
      ExecShape(srv, w, s.c, s.rid, s.statement);
    }
  }

  lemma {:induction false} RowsInvStep(srv: Server, w: World, s: Step)
    requires RowsInv(srv, w) && PoolInv(srv, w)
    ensures RowsInv(srv, Next(srv, w, s))
  {
    if !Enabled(w, s) {
    } else if s.Exec? && !Ends(s.statement) {
      RowsInvGoesOn(srv, w, s.c, s.rid, s.statement);
    } else if s.Exec? || s.Begin? {
      RowsInvStatus(srv, w, s);
    }
  }

  // ----- each committed request has its rows, and they name each other

  /** The rows that a finished request leaves: a transfer and its audit row share the transfer's id. */
  predicate Paired(w: World, rid: nat) {
    && rid in w.requests
    && var q, t, a := w.requests[rid], FindRow(w.txRows, rid), FindRow(w.auditRows, rid);
       q.Logs? || (a.Some? && (q.Transfer? ==>
         t.Some? && a.value.data.details == Some(TransferDetails(q.amount, q.description, t.value.data.id))))
  }

  predicate ProgressOk(w: World, tx: Tx) {
    && tx.rid in w.requests
    && var q, t, a := w.requests[tx.rid], FindRow(w.txRows, tx.rid), FindRow(w.auditRows, tx.rid);
       match tx.pc
       case Failed => true
       case Worked => a.None? && (q.Transfer? ==> t.Some? && tx.outcome == Inserted(t.value.data.id))
       case Audited => Paired(w, tx.rid)
       case _ => a.None? && t.None?
  }

  ghost predicate PairInv(w: World) {
    && OnePerTransaction(w.txRows) && OnePerTransaction(w.auditRows)
    && (forall c :: c in w.conns && w.conns[c].tx.Some? ==> ProgressOk(w, w.conns[c].tx.value))
    && (forall rid :: rid in w.status && w.status[rid] == Committed ==> Paired(w, rid))
  }

  lemma {:induction false} StillPaired(w: World, w': World, rid: nat)
    requires Paired(w, rid) && rid in w'.requests && w'.requests[rid] == w.requests[rid]
    requires FindRow(w'.txRows, rid) == FindRow(w.txRows, rid) && FindRow(w'.auditRows, rid) == FindRow(w.auditRows, rid)
    ensures Paired(w', rid)
  {
  }

  lemma {:induction false} AppendKeepsOne<D>(rows: seq<Row<D>>, r: Row<D>)
    requires OnePerTransaction(rows) && FindRow(rows, r.xid).None?
    ensures OnePerTransaction(rows + [r])
  {
    FindIsSound(rows, r.xid);
  }

  /** A transaction that goes on and writes only rows of its own leaves all others as they were. */
  lemma {:induction false} PairInvGoesOn(srv: Server, w: World, w': World, c: nat)
    requires PairInv(w) && PoolInv(srv, w) && c in w.conns && w.conns[c].tx.Some? && GoesOn(w, w', c)
    requires OnePerTransaction(w'.txRows) && OnePerTransaction(w'.auditRows)
    requires ProgressOk(w', w'.conns[c].tx.value)
    requires forall x :: x != w.conns[c].tx.value.rid ==>
      FindRow(w'.txRows, x) == FindRow(w.txRows, x) && FindRow(w'.auditRows, x) == FindRow(w.auditRows, x)
    ensures PairInv(w')
  {
    var rid := w.conns[c].tx.value.rid;
    assert ConnOk(srv, w, w.conns[c]);
    forall d | d in w'.conns && w'.conns[d].tx.Some? ensures ProgressOk(w', w'.conns[d].tx.value) {
      if d != c {
        assert ConnOk(srv, w, w.conns[d]);
        assert Runs(w, d, w.conns[d].tx.value.rid) && Runs(w, c, rid);
        assert ProgressOk(w, w.conns[d].tx.value);
      }
    }
    forall x | x in w'.status && w'.status[x] == Committed ensures Paired(w', x) {
      StillPaired(w, w', x);
    }
  }

  lemma {:induction false} PairInvWork(srv: Server, w: World, c: nat, rid: nat, uuid: string)
    requires PairInv(w) && PoolInv(srv, w) && Enabled(w, Exec(c, rid, Work(uuid)))
    ensures PairInv(DoWork(srv, w, c, rid, uuid))
  {
    var w' := DoWork(srv, w, c, rid, uuid);
    WorkShape(srv, w, c, rid, uuid);
    assert ProgressOk(w, w.conns[c].tx.value);
    if w'.txRows != w.txRows {
      var r := w'.txRows[|w.txRows|];
      assert w'.txRows == w.txRows + [r];
      AppendKeepsOne(w.txRows, r);
      forall x ensures FindRow(w'.txRows, x) == if r.xid == x then Some(r) else FindRow(w.txRows, x) {
        FindAfterAppend(w.txRows, r, x);
      }
    }
    PairInvGoesOn(srv, w, w', c);
  }

  lemma {:induction false} PairInvAudit(srv: Server, w: World, c: nat, rid: nat)
    requires PairInv(w) && PoolInv(srv, w) && Enabled(w, Exec(c, rid, Audit))
    ensures PairInv(DoAudit(srv, w, c, rid))
  {
    assert ConnOk(srv, w, w.conns[c]);
    assert ProgressOk(w, w.conns[c].tx.value);
    var w' := DoAudit(srv, w, c, rid);
    var r := AuditAppends(srv, w, c, rid);
    if w'.auditRows != w.auditRows {
      AppendKeepsOne(w.auditRows, r);
      forall x ensures FindRow(w'.auditRows, x) == if r.xid == x then Some(r) else FindRow(w.auditRows, x) {
        FindAfterAppend(w.auditRows, r, x);
      }
    }
    PairInvGoesOn(srv, w, w', c);
  }

  lemma {:induction false} PairInvEnd(srv: Server, w: World, c: nat, rid: nat, statement: Statement)
    requires PairInv(w) && PoolInv(srv, w) && Enabled(w, Exec(c, rid, statement)) && Ends(statement)
    ensures PairInv(DoStatement(srv, w, c, rid, statement))
  {
    var w' := DoStatement(srv, w, c, rid, statement);
    ExecShape(srv, w, c, rid, statement);
    assert ProgressOk(w, w.conns[c].tx.value);
    forall d | d in w'.conns && w'.conns[d].tx.Some? ensures ProgressOk(w', w'.conns[d].tx.value) {
      assert ProgressOk(w, w.conns[d].tx.value);
    }
    forall x | x in w'.status && w'.status[x] == Committed ensures Paired(w', x) {
      assert x != rid ==> Paired(w, x);
    }
  }

  lemma {:induction false} PairInvPool(srv: Server, w: World, s: Step)
    requires PairInv(w) && PoolInv(srv, w) && RowsInv(srv, w) && Enabled(w, s) && !s.Exec?
    ensures PairInv(Next(srv, w, s))
  {
    var w' := Next(srv, w, s);
    if s.Begin? {
      FindIsSound(w.txRows, s.rid);
      FindIsSound(w.auditRows, s.rid);
      assert forall r :: r in w.txRows ==> TxRowOk(srv, w.requests, r);
      assert forall r :: r in w.auditRows ==> AuditRowOk(srv, w.requests, r);
    }
    forall d | d in w'.conns && w'.conns[d].tx.Some? ensures ProgressOk(w', w'.conns[d].tx.value) {
      if !(s.Begin? && d == s.c) {
        assert ProgressOk(w, w.conns[d].tx.value);
        assert ConnOk(srv, w, w.conns[d]);
      }
    }
    forall x | x in w'.status && w'.status[x] == Committed ensures Paired(w', x) {
      assert Paired(w, x);
    }
  }

  lemma {:induction false} PairInvStep(srv: Server, w: World, s: Step)
    requires PairInv(w) && PoolInv(srv, w) && RowsInv(srv, w)
    ensures PairInv(Next(srv, w, s))
  {
    if !Enabled(w, s) {
    } else if !s.Exec? {
      PairInvPool(srv, w, s);
    } else if s.statement.Work? {
      PairInvWork(srv, w, s.c, s.rid, s.statement.uuid);
    } else if s.statement.Audit? {
      PairInvAudit(srv, w, s.c, s.rid);
    } else if Ends(s.statement) {
      PairInvEnd(srv, w, s.c, s.rid, s.statement);
    } else {
      ExecShape(srv, w, s.c, s.rid, s.statement);
      assert ProgressOk(w, w.conns[s.c].tx.value);
      PairInvGoesOn(srv, w, Next(srv, w, s), s.c);
    }
  }

  /** Everything above, over every run. */
  ghost predicate Inv(srv: Server, w: World) {
    PoolInv(srv, w) && RowsInv(srv, w) && PairInv(w)
  }

  lemma {:induction false} InvStep(srv: Server, w: World, s: Step)
    requires Inv(srv, w)
    ensures Inv(srv, Next(srv, w, s))
  {
    PoolInvStep(srv, w, s);
    RowsInvStep(srv, w, s);
    PairInvStep(srv, w, s);
  }

  lemma {:induction false} InvRun(srv: Server, steps: seq<Step>)
    ensures Inv(srv, Run(srv, INITIAL, steps))
  {
    if steps != [] {
      InvRun(srv, steps[..|steps| - 1]);
      InvStep(srv, Run(srv, INITIAL, steps[..|steps| - 1]), steps[|steps| - 1]);
    }
  }

  // ----- what the invariants say to a reader of the tables

  /** The audit row records the transfer of the transactions row. */
  predicate Records(a: Row<AuditData>, t: Row<TxData>) {
    && a.data.action == "CREATE_TRANSACTION"
    && a.data.details.Some? && a.data.details.value.TransferDetails? && a.data.details.value.txId == t.data.id
  }

  lemma {:induction false} SelectedRows<D>(rows: seq<Row<D>>, status: map<nat, TxStatus>, self: int, tenant: string, r: Row<D>)
    ensures r in Select(rows, status, self, tenant)
      <==> r in rows && r.tenant == tenant && (StatusOf(status, r.xid) == Committed || r.xid == self)
  {
    if rows != [] {
      SelectedRows(rows[..|rows| - 1], status, self, tenant, r);
      assert rows == rows[..|rows| - 1] + [rows[|rows| - 1]];
    }
  }

  /**
   * After any run, within each tenant: every committed transaction is recorded by exactly one
   * committed audit row, and every committed CREATE_TRANSACTION row records exactly one.
   */
  lemma {:induction false} AuditBijection(srv: Server, steps: seq<Step>, tenant: string)
    ensures var w := Run(srv, INITIAL, steps); var ts := Select(w.txRows, w.status, -1, tenant);
      && (forall t :: t in ts ==> exists a :: a in Ledger(w, tenant) && Records(a, t) && forall b :: b in Ledger(w, tenant) && Records(b, t) ==> b == a)
      && (forall a :: a in Ledger(w, tenant) && a.data.action == "CREATE_TRANSACTION"
            ==> exists t :: t in ts && Records(a, t) && forall u :: u in ts && Records(a, u) ==> u == t)
  {
    InvRun(srv, steps);
    var w := Run(srv, INITIAL, steps);
    var ts := Select(w.txRows, w.status, -1, tenant);
    forall t | t in ts
      ensures exists a :: a in Ledger(w, tenant) && Records(a, t) && forall b :: b in Ledger(w, tenant) && Records(b, t) ==> b == a
    {
      var a := RecordOf(srv, w, tenant, t);
    }
    forall a | a in Ledger(w, tenant) && a.data.action == "CREATE_TRANSACTION"
      ensures exists t :: t in ts && Records(a, t) && forall u :: u in ts && Records(a, u) ==> u == t
    {
      var t := TransferOf(srv, w, tenant, a);
    }
  }

  /** In an audit row and a transactions row that agree on the id, both come from one transaction. */
  lemma {:induction false} RecordsShareTransaction(srv: Server, w: World, tenant: string, a: Row<AuditData>, t: Row<TxData>)
    requires Inv(srv, w) && a in Ledger(w, tenant) && t in Select(w.txRows, w.status, -1, tenant) && Records(a, t)
    ensures a.xid == t.xid
  {
    SelectedRows(w.auditRows, w.status, -1, tenant, a);
    SelectedRows(w.txRows, w.status, -1, tenant, t);
    OnlyRow(w.auditRows, a);
    OnlyRow(w.txRows, t);
    assert AuditRowOk(srv, w.requests, a);
    assert Paired(w, a.xid);
    FindIsSound(w.txRows, a.xid);
    var u := FindRow(w.txRows, a.xid).value;
    var i :| 0 <= i < |w.txRows| && w.txRows[i] == u;
    var j :| 0 <= j < |w.txRows| && w.txRows[j] == t;
  }

  lemma {:induction false} RecordOf(srv: Server, w: World, tenant: string, t: Row<TxData>) returns (a: Row<AuditData>)
    requires Inv(srv, w) && t in Select(w.txRows, w.status, -1, tenant)
    ensures a in Ledger(w, tenant) && Records(a, t) && forall b :: b in Ledger(w, tenant) && Records(b, t) ==> b == a
  {
    SelectedRows(w.txRows, w.status, -1, tenant, t);
    OnlyRow(w.txRows, t);
    assert TxRowOk(srv, w.requests, t);
    assert Paired(w, t.xid);
    FindIsSound(w.auditRows, t.xid);
    a := FindRow(w.auditRows, t.xid).value;
    assert AuditRowOk(srv, w.requests, a);
    SelectedRows(w.auditRows, w.status, -1, tenant, a);
    forall b | b in Ledger(w, tenant) && Records(b, t) ensures b == a {
      RecordsShareTransaction(srv, w, tenant, b, t);
      SelectedRows(w.auditRows, w.status, -1, tenant, b);
      OnlyRow(w.auditRows, b);
    }
  }

  lemma {:induction false} TransferOf(srv: Server, w: World, tenant: string, a: Row<AuditData>) returns (t: Row<TxData>)
    requires Inv(srv, w) && a in Ledger(w, tenant) && a.data.action == "CREATE_TRANSACTION"
    ensures var ts := Select(w.txRows, w.status, -1, tenant);
      t in ts && Records(a, t) && forall u :: u in ts && Records(a, u) ==> u == t
  {
    SelectedRows(w.auditRows, w.status, -1, tenant, a);
    OnlyRow(w.auditRows, a);
    assert AuditRowOk(srv, w.requests, a);
    assert Paired(w, a.xid);
    FindIsSound(w.txRows, a.xid);
    t := FindRow(w.txRows, a.xid).value;
    assert TxRowOk(srv, w.requests, t);
    SelectedRows(w.txRows, w.status, -1, tenant, t);
    forall u | u in Select(w.txRows, w.status, -1, tenant) && Records(a, u) ensures u == t {
      RecordsShareTransaction(srv, w, tenant, a, u);
      SelectedRows(w.txRows, w.status, -1, tenant, u);
      OnlyRow(w.txRows, u);
    }
  }
}
