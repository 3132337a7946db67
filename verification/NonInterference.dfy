/**
 * Non-interference: what a tenant finds in the database, and every reply it gets, is what it would
 * find and get if the other tenants had never sent a request.
 */
module NonInterference {
  import opened Common
  import opened Database
  import opened LedgerInvariants
  import opened HashChain

  // ----- what a tenant owns, and what it sees of an audit row

  predicate Owned(srv: Server, w: World, rid: nat, tenant: string) {
    rid in w.requests && srv.castUuid(w.requests[rid].tenant) == Some(tenant)
  }

  function OfTenant<D>(rows: seq<Row<D>>, tenant: string): seq<Row<D>> {
    if rows == [] then []
    else OfTenant(rows[..|rows| - 1], tenant) + if rows[|rows| - 1].tenant == tenant then [rows[|rows| - 1]] else []
  }

  /** All of an audit row but its id, which counts the rows of every tenant. */
  function WithoutId(r: Row<AuditData>): Row<AuditData> {
    r.(data := r.data.(id := 0))
  }

  function WithoutIds(rows: seq<Row<AuditData>>): (s: seq<Row<AuditData>>)
    ensures |s| == |rows|
    ensures forall i :: 0 <= i < |rows| ==> s[i] == WithoutId(rows[i])
  {
    if rows == [] then [] else WithoutIds(rows[..|rows| - 1]) + [WithoutId(rows[|rows| - 1])]
  }

  predicate SameOutcome(o: Outcome, o': Outcome) {
    if o.Rows? then o'.Rows? && WithoutIds(o.rows) == WithoutIds(o'.rows) else o == o'
  }

  // ----- the run with the other tenants' requests taken out

  /** An enabled step of this tenant's requests, or one of the pool itself. */
  predicate Concerns(srv: Server, w: World, s: Step, tenant: string) {
    && Enabled(w, s)
    && (s.Begin? ==> srv.castUuid(s.request.tenant) == Some(tenant))
    && (s.Exec? ==> Owned(srv, w, s.rid, tenant))
  }

  function Purge(srv: Server, steps: seq<Step>, tenant: string): seq<Step> {
    if steps == [] then []
    else
      var before, s := steps[..|steps| - 1], steps[|steps| - 1];
      Purge(srv, before, tenant) + if Concerns(srv, Run(srv, INITIAL, before), s, tenant) then [s] else []
  }

  /** An id drawn for a transfer of this tenant is not the id of another tenant's transfer. */
  ghost predicate DrawsApart(srv: Server, steps: seq<Step>, tenant: string) {
    steps == [] ||
    var before, s := steps[..|steps| - 1], steps[|steps| - 1];
    var w := Run(srv, INITIAL, before);
    && DrawsApart(srv, before, tenant)
    && (Concerns(srv, w, s, tenant) && s.Exec? && s.statement.Work? ==> DrawnApart(w.txRows, w.status, s.statement.uuid, tenant))
  }

  ghost predicate DrawnApart(rows: seq<Row<TxData>>, status: map<nat, TxStatus>, uuid: string, tenant: string) {
    forall r :: r in rows && r.data.id == uuid && StatusOf(status, r.xid) == Committed ==> r.tenant == tenant
  }

  // ----- filtering rows

  lemma {:induction false} OfTenantMember<D>(rows: seq<Row<D>>, tenant: string, r: Row<D>)
    ensures r in OfTenant(rows, tenant) <==> r in rows && r.tenant == tenant
  {
    if rows != [] {
      OfTenantMember(rows[..|rows| - 1], tenant, r);
      assert rows == rows[..|rows| - 1] + [rows[|rows| - 1]];
    }
  }

  lemma {:induction false} OfTenantAppend<D>(rows: seq<Row<D>>, r: Row<D>, tenant: string)
    ensures OfTenant(rows + [r], tenant) == OfTenant(rows, tenant) + if r.tenant == tenant then [r] else []
  {
    assert (rows + [r])[..|rows|] == rows;
  }

  lemma {:induction false} SelectOfTenant<D>(rows: seq<Row<D>>, status: map<nat, TxStatus>, self: int, tenant: string)
    ensures Select(rows, status, self, tenant) == Select(OfTenant(rows, tenant), status, self, tenant)
  {
    if rows != [] {
      var front, r := rows[..|rows| - 1], rows[|rows| - 1];
      SelectOfTenant(front, status, self, tenant);
      if r.tenant == tenant {
        SelectAppend(OfTenant(front, tenant), r, status, self, tenant);
      } else {
        assert OfTenant(rows, tenant) == OfTenant(front, tenant);
      }
    }
  }

  lemma {:induction false} WithoutIdsAppend(rows: seq<Row<AuditData>>, r: Row<AuditData>)
    ensures WithoutIds(rows + [r]) == WithoutIds(rows) + [WithoutId(r)]
  {
    assert (rows + [r])[..|rows|] == rows;
  }

  lemma {:induction false} SelectWithoutIds(rows: seq<Row<AuditData>>, status: map<nat, TxStatus>, self: int, tenant: string)
    ensures WithoutIds(Select(rows, status, self, tenant)) == Select(WithoutIds(rows), status, self, tenant)
  {
    if rows != [] {
      var front, r := rows[..|rows| - 1], rows[|rows| - 1];
      SelectWithoutIds(front, status, self, tenant);
      SelectAppend(WithoutIds(front), WithoutId(r), status, self, tenant);
      WithoutIdsAppend(Select(front, status, self, tenant), r);
    }
  }

  lemma {:induction false} TwinTxSelect(
      rows: seq<Row<TxData>>, rows': seq<Row<TxData>>, status: map<nat, TxStatus>, status': map<nat, TxStatus>, self: int, tenant: string)
    requires OfTenant(rows, tenant) == OfTenant(rows', tenant)
    requires forall r :: r in rows && r.tenant == tenant ==> StatusOf(status, r.xid) == StatusOf(status', r.xid)
    ensures Select(rows, status, self, tenant) == Select(rows', status', self, tenant)
  {
    SelectSame(rows, status, self, status', self, tenant);
    SelectOfTenant(rows, status', self, tenant);
    SelectOfTenant(rows', status', self, tenant);
  }

  lemma {:induction false} TwinAuditSelect(
      rows: seq<Row<AuditData>>, rows': seq<Row<AuditData>>, status: map<nat, TxStatus>, status': map<nat, TxStatus>, self: int, tenant: string)
    requires WithoutIds(OfTenant(rows, tenant)) == WithoutIds(OfTenant(rows', tenant))
    requires forall r :: r in rows && r.tenant == tenant ==> StatusOf(status, r.xid) == StatusOf(status', r.xid)
    ensures WithoutIds(Select(rows, status, self, tenant)) == WithoutIds(Select(rows', status', self, tenant))
  {
    SelectSame(rows, status, self, status', self, tenant);
    SelectOfTenant(rows, status', self, tenant);
    SelectOfTenant(rows', status', self, tenant);
    SelectWithoutIds(OfTenant(rows, tenant), status', self, tenant);
    SelectWithoutIds(OfTenant(rows', tenant), status', self, tenant);
  }

  lemma {:induction false} TwinTip(rows: seq<Row<AuditData>>, rows': seq<Row<AuditData>>)
    requires WithoutIds(rows) == WithoutIds(rows')
    ensures Tip(rows) == Tip(rows')
  {
    assert |rows| == |rows'|;
    if rows != [] {
      assert WithoutIds(rows)[|rows| - 1] == WithoutIds(rows')[|rows| - 1];
    }
  }

  // ----- the run and its purged twin

  predicate TwinTx(tx: Tx, tx': Tx) {
    tx.rid == tx'.rid && tx.now == tx'.now && tx.pc == tx'.pc && SameOutcome(tx.outcome, tx'.outcome)
  }

  /** The connection serves the same request of the tenant in both, or is idle in the purged run. */
  predicate TwinConn(srv: Server, w: World, conn: Conn, conn': Conn, tenant: string) {
    if conn.tx.Some? && Owned(srv, w, conn.tx.value.rid, tenant) then conn'.tx.Some? && TwinTx(conn.tx.value, conn'.tx.value)
    else conn'.tx.None?
  }

  predicate TwinRows(w: World, w': World, tenant: string) {
    && OfTenant(w.txRows, tenant) == OfTenant(w'.txRows, tenant)
    && WithoutIds(OfTenant(w.auditRows, tenant)) == WithoutIds(OfTenant(w'.auditRows, tenant))
  }

  ghost predicate TwinRequests(srv: Server, w: World, w': World, tenant: string) {
    && (forall rid :: rid in w'.requests <==> Owned(srv, w, rid, tenant))
    && (forall rid :: rid in w'.requests ==>
          && w'.requests[rid] == w.requests[rid]
          && StatusOf(w'.status, rid) == StatusOf(w.status, rid)
          && (rid in w'.replies <==> rid in w.replies)
          && (rid in w'.replies ==> SameOutcome(w.replies[rid], w'.replies[rid])))
  }

  ghost predicate Twin(srv: Server, w: World, w': World, tenant: string) {
    && w.conns.Keys == w'.conns.Keys
    && (forall c :: c in w.conns ==> TwinConn(srv, w, w.conns[c], w'.conns[c], tenant))
    && TwinRequests(srv, w, w', tenant)
    && TwinRows(w, w', tenant)
  }

  /** What both runs keep besides. */
  ghost predicate Both(srv: Server, w: World, w': World, tenant: string) {
    Inv(srv, w) && Inv(srv, w') && Twin(srv, w, w', tenant)
  }

  lemma {:induction false} TenantStatus(srv: Server, w: World, w': World, tenant: string)
    requires Both(srv, w, w', tenant)
    ensures forall r :: r in w.txRows && r.tenant == tenant ==> StatusOf(w.status, r.xid) == StatusOf(w'.status, r.xid)
    ensures forall r :: r in w.auditRows && r.tenant == tenant ==> StatusOf(w.status, r.xid) == StatusOf(w'.status, r.xid)
  {
    forall r | r in w.txRows && r.tenant == tenant ensures StatusOf(w.status, r.xid) == StatusOf(w'.status, r.xid) {
      assert TxRowOk(srv, w.requests, r);
    }
    forall r | r in w.auditRows && r.tenant == tenant ensures StatusOf(w.status, r.xid) == StatusOf(w'.status, r.xid) {
      assert AuditRowOk(srv, w.requests, r);
    }
  }

  lemma {:induction false} TwinReads(srv: Server, w: World, w': World, self: int, tenant: string)
    requires Both(srv, w, w', tenant)
    ensures Select(w.txRows, w.status, self, tenant) == Select(w'.txRows, w'.status, self, tenant)
    ensures WithoutIds(Select(w.auditRows, w.status, self, tenant)) == WithoutIds(Select(w'.auditRows, w'.status, self, tenant))
  {
    TenantStatus(srv, w, w', tenant);
    TwinTxSelect(w.txRows, w'.txRows, w.status, w'.status, self, tenant);
    TwinAuditSelect(w.auditRows, w'.auditRows, w.status, w'.status, self, tenant);
  }

  /** Connections that neither run touches stay twins. */
  lemma {:induction false} OtherConns(srv: Server, w: World, w': World, v: World, v': World, c: nat, tenant: string)
    requires forall d :: d in w.conns ==> d in w'.conns && TwinConn(srv, w, w.conns[d], w'.conns[d], tenant)
    requires c in v.conns && v.conns == w.conns[c := v.conns[c]] && c in v'.conns && v'.conns == w'.conns[c := v'.conns[c]]
    requires forall d :: d in w.conns && w.conns[d].tx.Some? ==>
      (Owned(srv, v, w.conns[d].tx.value.rid, tenant) <==> Owned(srv, w, w.conns[d].tx.value.rid, tenant))
    requires TwinConn(srv, v, v.conns[c], v'.conns[c], tenant)
    ensures forall d :: d in v.conns ==> d in v'.conns && TwinConn(srv, v, v.conns[d], v'.conns[d], tenant)
  {
  }

  // ----- steps of other tenants

  /** Another tenant's transaction goes on, and adds no row of this tenant. */
  lemma {:induction false} OtherGoesOn(srv: Server, w: World, w': World, v: World, c: nat, tenant: string)
    requires Twin(srv, w, w', tenant) && c in w.conns && w.conns[c].tx.Some? && GoesOn(w, v, c)
    requires !Owned(srv, w, w.conns[c].tx.value.rid, tenant) && TwinRows(v, w', tenant)
    ensures Twin(srv, v, w', tenant)
  {
    assert TwinConn(srv, w, w.conns[c], w'.conns[c], tenant);
    OtherConns(srv, w, w', v, w', c, tenant);
  }

  /** The row a transfer adds is of the tenant that asked for it. */
  lemma {:induction false} WorkAppends(srv: Server, w: World, v: World, c: nat, rid: nat, uuid: string)
    requires Runs(w, c, rid) && v == DoWork(srv, w, c, rid, uuid)
    ensures v.txRows == w.txRows
         || (|v.txRows| == |w.txRows| + 1 && v.txRows == w.txRows + [v.txRows[|w.txRows|]]
             && v.txRows[|w.txRows|].xid == rid && srv.castUuid(w.requests[rid].tenant) == Some(v.txRows[|w.txRows|].tenant))
  {
  }

  lemma {:induction false} OtherWork(srv: Server, w: World, w': World, c: nat, rid: nat, uuid: string, tenant: string)
    requires Twin(srv, w, w', tenant) && Runs(w, c, rid) && !Owned(srv, w, rid, tenant)
    ensures Twin(srv, DoWork(srv, w, c, rid, uuid), w', tenant)
  {
    var v := DoWork(srv, w, c, rid, uuid);
    WorkShape(srv, w, c, rid, uuid);
    WorkAppends(srv, w, v, c, rid, uuid);
    if v.txRows != w.txRows {
      OfTenantAppend(w.txRows, v.txRows[|w.txRows|], tenant);
    }
    OtherGoesOn(srv, w, w', v, c, tenant);
  }

  lemma {:induction false} OtherAudit(srv: Server, w: World, w': World, c: nat, rid: nat, tenant: string)
    requires Both(srv, w, w', tenant) && Enabled(w, Exec(c, rid, Audit)) && !Owned(srv, w, rid, tenant)
    ensures Twin(srv, DoAudit(srv, w, c, rid), w', tenant)
  {
    assert ConnOk(srv, w, w.conns[c]);
    var r := AuditAppends(srv, w, c, rid);
    OfTenantAppend(w.auditRows, r, tenant);
    OtherGoesOn(srv, w, w', DoAudit(srv, w, c, rid), c, tenant);
  }

  /** What a commit or rollback changes, seen from outside the transaction. */
  ghost predicate Ended(w: World, v: World, c: nat, rid: nat, statement: Statement) {
    && c in w.conns && w.conns[c].tx.Some? && w.conns[c].tx.value.rid == rid
    && c in v.conns && v.conns == w.conns[c := v.conns[c]] && v.conns[c].tx.None?
    && v.requests == w.requests && v.txRows == w.txRows && v.auditRows == w.auditRows
    && v.status == w.status[rid := if statement.Commit? then Committed else Aborted]
    && v.replies == if statement.Commit? && statement.acknowledged then w.replies[rid := w.conns[c].tx.value.outcome] else w.replies
  }

  lemma {:induction false} EndsShape(srv: Server, w: World, c: nat, rid: nat, statement: Statement)
    requires Enabled(w, Exec(c, rid, statement)) && Ends(statement)
    ensures Ended(w, DoStatement(srv, w, c, rid, statement), c, rid, statement)
  {
  }

  lemma {:induction false} OtherEnded(srv: Server, w: World, w': World, v: World, c: nat, rid: nat, statement: Statement, tenant: string)
    requires Twin(srv, w, w', tenant) && Ended(w, v, c, rid, statement) && !Owned(srv, w, rid, tenant)
    ensures Twin(srv, v, w', tenant)
  {
    assert TwinConn(srv, w, w.conns[c], w'.conns[c], tenant);
    OtherConns(srv, w, w', v, w', c, tenant);
  }

  lemma {:induction false} OtherExec(srv: Server, w: World, w': World, c: nat, rid: nat, statement: Statement, tenant: string)
    requires Both(srv, w, w', tenant) && Enabled(w, Exec(c, rid, statement)) && !Owned(srv, w, rid, tenant)
    ensures Twin(srv, DoStatement(srv, w, c, rid, statement), w', tenant)
  {
    if statement.Work? {
      OtherWork(srv, w, w', c, rid, statement.uuid, tenant);
    } else if statement.Audit? {
      OtherAudit(srv, w, w', c, rid, tenant);
    } else if Ends(statement) {
      EndsShape(srv, w, c, rid, statement);
      OtherEnded(srv, w, w', DoStatement(srv, w, c, rid, statement), c, rid, statement, tenant);
    } else {
      ExecShape(srv, w, c, rid, statement);
      OtherGoesOn(srv, w, w', DoStatement(srv, w, c, rid, statement), c, tenant);
    }
  }

  /** What a Begin changes. */
  ghost predicate Started(w: World, v: World, c: nat, rid: nat, request: Request, now: string) {
    && c in w.conns && rid !in w.requests && rid !in w.status
    && c in v.conns && v.conns == w.conns[c := v.conns[c]] && v.conns[c].tx.Some?
    && v.conns[c].tx.value == Tx(rid, now, v.conns[c].tx.value.local, Begun, Nothing)
    && v.requests == w.requests[rid := request] && v.txRows == w.txRows && v.auditRows == w.auditRows
    && v.status == w.status[rid := InProgress] && v.replies == w.replies
  }

  lemma {:induction false} BeginShape(srv: Server, w: World, s: Step)
    requires PoolInv(srv, w) && Enabled(w, s) && s.Begin?
    ensures Started(w, Next(srv, w, s), s.c, s.rid, s.request, s.now)
  {
  }

  /** A connection that is in use serves a request already made. */
  ghost predicate AllKnown(w: World) {
    forall d :: d in w.conns && w.conns[d].tx.Some? ==> w.conns[d].tx.value.rid in w.requests
  }

  lemma {:induction false} UsedByKnown(srv: Server, w: World)
    requires PoolInv(srv, w)
    ensures AllKnown(w)
  {
    forall d | d in w.conns && w.conns[d].tx.Some? ensures w.conns[d].tx.value.rid in w.requests {
      assert ConnOk(srv, w, w.conns[d]);
    }
  }

  lemma {:induction false} OtherBegin(
      srv: Server, w: World, w': World, v: World, c: nat, rid: nat, request: Request, now: string, tenant: string)
    requires AllKnown(w) && Twin(srv, w, w', tenant) && Idle(w, c)
    requires Started(w, v, c, rid, request, now) && srv.castUuid(request.tenant) != Some(tenant)
    ensures Twin(srv, v, w', tenant)
  {
    assert TwinConn(srv, w, w.conns[c], w'.conns[c], tenant);
    OtherConns(srv, w, w', v, w', c, tenant);
    OtherRequests(srv, w, w', v, c, rid, request, now, tenant);
  }

  lemma {:induction false} OtherRequests(
      srv: Server, w: World, w': World, v: World, c: nat, rid: nat, request: Request, now: string, tenant: string)
    requires TwinRequests(srv, w, w', tenant)
    requires Started(w, v, c, rid, request, now) && srv.castUuid(request.tenant) != Some(tenant)
    ensures TwinRequests(srv, v, w', tenant)
  {
    assert !Owned(srv, w, rid, tenant);
  }

  // ----- the tenant's own steps, taken in both

  lemma {:induction false} OwnGoesOn(srv: Server, w: World, w': World, v: World, v': World, c: nat, tenant: string)
    requires Twin(srv, w, w', tenant) && c in w.conns && w.conns[c].tx.Some? && w'.conns[c].tx.Some?
    requires GoesOn(w, v, c) && GoesOn(w', v', c) && Owned(srv, w, w.conns[c].tx.value.rid, tenant)
    requires TwinTx(v.conns[c].tx.value, v'.conns[c].tx.value) && TwinRows(v, v', tenant)
    ensures Twin(srv, v, v', tenant)
  {
    assert TwinConn(srv, w, w.conns[c], w'.conns[c], tenant);
    OtherConns(srv, w, w', v, v', c, tenant);
  }

  lemma {:induction false} SameIdTaken(srv: Server, w: World, w': World, uuid: string, tenant: string)
    requires Both(srv, w, w', tenant) && DrawnApart(w.txRows, w.status, uuid, tenant)
    ensures IdTaken(w.txRows, w.status, uuid) == IdTaken(w'.txRows, w'.status, uuid)
  {
    if IdTaken(w.txRows, w.status, uuid) {
      var i :| 0 <= i < |w.txRows| && w.txRows[i].data.id == uuid && StatusOf(w.status, w.txRows[i].xid) == Committed;
      assert w.txRows[i] in w.txRows;
      TenantStatus(srv, w, w', tenant);
      OfTenantMember(w.txRows, tenant, w.txRows[i]);
      OfTenantMember(w'.txRows, tenant, w.txRows[i]);
    }
    TakenInBoth(srv, w, w', uuid, tenant);
  }

  /** An id taken in the purged run is taken in the run itself. */
  lemma {:induction false} TakenInBoth(srv: Server, w: World, w': World, uuid: string, tenant: string)
    requires Both(srv, w, w', tenant)
    ensures IdTaken(w'.txRows, w'.status, uuid) ==> IdTaken(w.txRows, w.status, uuid)
  {
    if IdTaken(w'.txRows, w'.status, uuid) {
      var i :| 0 <= i < |w'.txRows| && w'.txRows[i].data.id == uuid && StatusOf(w'.status, w'.txRows[i].xid) == Committed;
      assert w'.txRows[i] in w'.txRows;
      assert TxRowOk(srv, w'.requests, w'.txRows[i]);
      OfTenantMember(w.txRows, tenant, w'.txRows[i]);
      OfTenantMember(w'.txRows, tenant, w'.txRows[i]);
    }
  }

  /** What a request of this tenant sees of the tables. */
  function Seen<D>(rows: seq<Row<D>>, status: map<nat, TxStatus>, rid: nat, request: Request, tenant: string): seq<Row<D>> {
    if request.tenant == "" then [] else Select(rows, status, rid, tenant)
  }

  /** A read changes its own transaction only, and depends on the tables only by what it sees. */
  lemma {:induction false} ReadEffect(srv: Server, w: World, v: World, c: nat, rid: nat, uuid: string, tenant: string)
    requires Runs(w, c, rid) && Owned(srv, w, rid, tenant) && !w.requests[rid].Transfer?
    requires w.conns[c].tx.value.local.tenant == Text(w.requests[rid].tenant)
    requires v == DoWork(srv, w, c, rid, uuid) && GoesOn(w, v, c)
    ensures v.txRows == w.txRows
    ensures v.conns[c].tx.value == w.conns[c].tx.value.(pc := Worked, outcome :=
      if w.requests[rid].Balance? then Sum(SumCents(Seen(w.txRows, w.status, rid, w.requests[rid], tenant)))
      else Rows(Seen(w.auditRows, w.status, rid, w.requests[rid], tenant)))
  {
  }

  function NewTx(request: Request, rid: nat, uuid: string, tenant: string): Option<Row<TxData>>
    requires request.Transfer?
  {
    if request.tenant == "" || Cents(request.amount).None? then None
    else Some(Row(rid, tenant, TxData(uuid, Cents(request.amount).value, request.description)))
  }

  /** An insert succeeds unless the amount does not fit or the id is taken. */
  lemma {:induction false} TransferEffect(srv: Server, w: World, v: World, c: nat, rid: nat, uuid: string, tenant: string)
    requires Runs(w, c, rid) && Owned(srv, w, rid, tenant) && w.requests[rid].Transfer?
    requires w.conns[c].tx.value.local.tenant == Text(w.requests[rid].tenant)
    requires v == DoWork(srv, w, c, rid, uuid) && GoesOn(w, v, c)
    ensures var row := NewTx(w.requests[rid], rid, uuid, tenant);
      if row.None? || IdTaken(w.txRows, w.status, uuid) then v.txRows == w.txRows && v.conns[c].tx.value == w.conns[c].tx.value.(pc := Failed)
      else v.txRows == w.txRows + [row.value] && v.conns[c].tx.value == w.conns[c].tx.value.(pc := Worked, outcome := Inserted(uuid))
  {
  }

  lemma {:induction false} OwnWork(srv: Server, w: World, w': World, c: nat, rid: nat, uuid: string, tenant: string)
    requires Both(srv, w, w', tenant) && Enabled(w, Exec(c, rid, Work(uuid))) && Enabled(w', Exec(c, rid, Work(uuid)))
    requires Owned(srv, w, rid, tenant) && DrawnApart(w.txRows, w.status, uuid, tenant)
    ensures Twin(srv, DoWork(srv, w, c, rid, uuid), DoWork(srv, w', c, rid, uuid), tenant)
  {
    var v, v' := DoWork(srv, w, c, rid, uuid), DoWork(srv, w', c, rid, uuid);
    assert ConnOk(srv, w, w.conns[c]) && ConnOk(srv, w', w'.conns[c]);
    assert TwinConn(srv, w, w.conns[c], w'.conns[c], tenant);
    TwinReads(srv, w, w', rid, tenant);
    SameIdTaken(srv, w, w', uuid, tenant);
    WorkShape(srv, w, c, rid, uuid);
    WorkShape(srv, w', c, rid, uuid);
    if w.requests[rid].Transfer? {
      TransferEffect(srv, w, v, c, rid, uuid, tenant);
      TransferEffect(srv, w', v', c, rid, uuid, tenant);
      if v.txRows != w.txRows {
        OfTenantAppend(w.txRows, v.txRows[|w.txRows|], tenant);
        OfTenantAppend(w'.txRows, v'.txRows[|w'.txRows|], tenant);
      }
    } else {
      ReadEffect(srv, w, v, c, rid, uuid, tenant);
      ReadEffect(srv, w', v', c, rid, uuid, tenant);
    }
    OwnGoesOn(srv, w, w', v, v', c, tenant);
  }

  /** The audit row of a request once the trigger has linked it to `last`. */
  function Sealed(srv: Server, rid: nat, request: Request, tenant: string, id: nat, tx: Tx, last: string): Row<AuditData>
    requires !request.Logs?
  {
    var r := Unhashed(rid, request, tenant, id, tx.now, tx.outcome);
    var linked := r.(data := r.data.(prevHash := last));
    linked.(data := linked.data.(blockHash := BlockHash(srv, srv.auditSecret, linked)))
  }

  /** An audit row depends on the tables only through the block it links to and the id it draws. */
  lemma {:induction false} AuditEffect(srv: Server, w: World, v: World, c: nat, rid: nat, tenant: string)
    requires Runs(w, c, rid) && Owned(srv, w, rid, tenant) && !w.requests[rid].Logs?
    requires w.conns[c].tx.value.local == Settings(Text(w.requests[rid].tenant), Text(srv.auditSecret))
    requires v == DoAudit(srv, w, c, rid) && GoesOn(w, v, c)
    ensures var q, tx := w.requests[rid], w.conns[c].tx.value;
      if q.tenant == "" || srv.auditSecret == "" then v.auditRows == w.auditRows && v.conns[c].tx.value == tx.(pc := Failed)
      else
        && v.conns[c].tx.value == tx.(pc := Audited)
        && v.auditRows == w.auditRows
             + [Sealed(srv, rid, q, tenant, w.nextId, tx, LastBlockHash(Select(w.auditRows, w.status, rid, tenant)))]
  {
  }

  /** The id enters no hash. */
  lemma {:induction false} SealedTwins(
      srv: Server, rid: nat, request: Request, tenant: string, id: nat, id': nat, tx: Tx, tx': Tx, last: string)
    requires !request.Logs? && TwinTx(tx, tx')
    ensures WithoutId(Sealed(srv, rid, request, tenant, id, tx, last)) == WithoutId(Sealed(srv, rid, request, tenant, id', tx', last))
  {
    var r, r' := Sealed(srv, rid, request, tenant, id, tx, last), Sealed(srv, rid, request, tenant, id', tx', last);
    assert ConcatText(srv, r) == ConcatText(srv, r');
  }

  lemma {:induction false} OwnAudit(srv: Server, w: World, w': World, c: nat, rid: nat, tenant: string)
    requires Both(srv, w, w', tenant) && Enabled(w, Exec(c, rid, Audit)) && Enabled(w', Exec(c, rid, Audit))
    requires Owned(srv, w, rid, tenant)
    ensures Twin(srv, DoAudit(srv, w, c, rid), DoAudit(srv, w', c, rid), tenant)
  {
    var v, v' := DoAudit(srv, w, c, rid), DoAudit(srv, w', c, rid);
    assert ConnOk(srv, w, w.conns[c]) && ConnOk(srv, w', w'.conns[c]);
    assert TwinConn(srv, w, w.conns[c], w'.conns[c], tenant);
    TriggerSeesTip(srv, w, c, rid, tenant);
    TriggerSeesTip(srv, w', c, rid, tenant);
    TwinReads(srv, w, w', -1, tenant);
    TwinTip(Ledger(w, tenant), Ledger(w', tenant));
    AuditShape(srv, w, c, rid);
    AuditShape(srv, w', c, rid);
    AuditEffect(srv, w, v, c, rid, tenant);
    AuditEffect(srv, w', v', c, rid, tenant);
    if v.auditRows != w.auditRows {
      var r, r' := v.auditRows[|w.auditRows|], v'.auditRows[|w'.auditRows|];
      SealedTwins(srv, rid, w.requests[rid], tenant, w.nextId, w'.nextId, w.conns[c].tx.value, w'.conns[c].tx.value, Tip(Ledger(w, tenant)));
      OfTenantAppend(w.auditRows, r, tenant);
      OfTenantAppend(w'.auditRows, r', tenant);
      WithoutIdsAppend(OfTenant(w.auditRows, tenant), r);
      WithoutIdsAppend(OfTenant(w'.auditRows, tenant), r');
    }
    OwnGoesOn(srv, w, w', v, v', c, tenant);
  }

  lemma {:induction false} OwnEnded(
      srv: Server, w: World, w': World, v: World, v': World, c: nat, rid: nat, statement: Statement, tenant: string)
    requires Twin(srv, w, w', tenant) && Ended(w, v, c, rid, statement) && Ended(w', v', c, rid, statement) && Owned(srv, w, rid, tenant)
    ensures Twin(srv, v, v', tenant)
  {
    assert TwinConn(srv, w, w.conns[c], w'.conns[c], tenant);
    OtherConns(srv, w, w', v, v', c, tenant);
    EndedRequests(srv, w, w', v, v', c, rid, statement, tenant);
  }

  lemma {:induction false} EndedRequests(
      srv: Server, w: World, w': World, v: World, v': World, c: nat, rid: nat, statement: Statement, tenant: string)
    requires TwinRequests(srv, w, w', tenant) && Ended(w, v, c, rid, statement) && Ended(w', v', c, rid, statement)
    requires TwinTx(w.conns[c].tx.value, w'.conns[c].tx.value)
    ensures TwinRequests(srv, v, v', tenant)
  {
    forall x ensures x in v'.requests <==> Owned(srv, v, x, tenant) {
      assert x in w'.requests <==> Owned(srv, w, x, tenant);
    }
  }

  lemma {:induction false} OwnSettings(srv: Server, w: World, w': World, c: nat, rid: nat, statement: Statement, tenant: string)
    requires Both(srv, w, w', tenant) && Enabled(w, Exec(c, rid, statement)) && Enabled(w', Exec(c, rid, statement))
    requires Owned(srv, w, rid, tenant) && !Ends(statement) && !statement.Work? && !statement.Audit?
    ensures Twin(srv, DoStatement(srv, w, c, rid, statement), DoStatement(srv, w', c, rid, statement), tenant)
  {
    ExecShape(srv, w, c, rid, statement);
    ExecShape(srv, w', c, rid, statement);
    assert TwinConn(srv, w, w.conns[c], w'.conns[c], tenant);
    OwnGoesOn(srv, w, w', DoStatement(srv, w, c, rid, statement), DoStatement(srv, w', c, rid, statement), c, tenant);
  }

  /** What the tenant need not wait for in the run it need not wait for in the purged run. */
  lemma {:induction false} AwaitedInBoth(srv: Server, w: World, w': World, uuid: string, tenant: string)
    requires Both(srv, w, w', tenant)
    ensures IdAwaited(w'.txRows, w'.status, uuid) ==> IdAwaited(w.txRows, w.status, uuid)
  {
    if IdAwaited(w'.txRows, w'.status, uuid) {
      var i :| 0 <= i < |w'.txRows| && w'.txRows[i].data.id == uuid && StatusOf(w'.status, w'.txRows[i].xid) == InProgress;
      assert w'.txRows[i] in w'.txRows;
      assert TxRowOk(srv, w'.requests, w'.txRows[i]);
      OfTenantMember(w.txRows, tenant, w'.txRows[i]);
      OfTenantMember(w'.txRows, tenant, w'.txRows[i]);
    }
  }

  lemma {:induction false} OwnExecEnabled(srv: Server, w: World, w': World, c: nat, rid: nat, statement: Statement, tenant: string)
    requires Both(srv, w, w', tenant) && Enabled(w, Exec(c, rid, statement)) && Owned(srv, w, rid, tenant)
    ensures Enabled(w', Exec(c, rid, statement))
  {
    assert TwinConn(srv, w, w.conns[c], w'.conns[c], tenant);
    if statement.Work? {
      AwaitedInBoth(srv, w, w', statement.uuid, tenant);
    }
  }

  lemma {:induction false} OwnExec(srv: Server, w: World, w': World, c: nat, rid: nat, statement: Statement, tenant: string)
    requires Both(srv, w, w', tenant) && Enabled(w, Exec(c, rid, statement)) && Enabled(w', Exec(c, rid, statement))
    requires Owned(srv, w, rid, tenant) && (statement.Work? ==> DrawnApart(w.txRows, w.status, statement.uuid, tenant))
    ensures Twin(srv, DoStatement(srv, w, c, rid, statement), DoStatement(srv, w', c, rid, statement), tenant)
  {
    if statement.Work? {
      OwnWork(srv, w, w', c, rid, statement.uuid, tenant);
    } else if statement.Audit? {
      OwnAudit(srv, w, w', c, rid, tenant);
    } else if Ends(statement) {
      EndsShape(srv, w, c, rid, statement);
      EndsShape(srv, w', c, rid, statement);
      OwnEnded(srv, w, w', DoStatement(srv, w, c, rid, statement), DoStatement(srv, w', c, rid, statement), c, rid, statement, tenant);
    } else {
      OwnSettings(srv, w, w', c, rid, statement, tenant);
    }
  }

  lemma {:induction false} PoolEnabled(srv: Server, w: World, w': World, s: Step, tenant: string)
    requires Both(srv, w, w', tenant) && Concerns(srv, w, s, tenant) && !s.Exec?
    ensures Enabled(w', s)
  {
    assert s.c in w.conns ==> TwinConn(srv, w, w.conns[s.c], w'.conns[s.c], tenant);
  }

  lemma {:induction false} OwnPool(srv: Server, w: World, w': World, s: Step, tenant: string)
    requires Twin(srv, w, w', tenant) && Enabled(w, s) && Enabled(w', s) && (s.Open? || s.Close? || s.Reset?)
    ensures Twin(srv, Next(srv, w, s), Next(srv, w', s), tenant)
  {
    var v, v' := Next(srv, w, s), Next(srv, w', s);
    forall d | d in v.conns ensures d in v'.conns && TwinConn(srv, v, v.conns[d], v'.conns[d], tenant) {
      assert d in w.conns ==> TwinConn(srv, w, w.conns[d], w'.conns[d], tenant);
    }
  }

  lemma {:induction false} OwnBegin(
      srv: Server, w: World, w': World, v: World, v': World, c: nat, rid: nat, request: Request, now: string, tenant: string)
    requires AllKnown(w) && Twin(srv, w, w', tenant) && srv.castUuid(request.tenant) == Some(tenant)
    requires Started(w, v, c, rid, request, now) && Started(w', v', c, rid, request, now)
    requires rid !in w.replies && rid !in w'.replies
    ensures Twin(srv, v, v', tenant)
  {
    OwnRequests(srv, w, w', v, v', c, rid, request, now, tenant);
    BegunConns(srv, w, w', v, v', c, rid, request, now, tenant);
  }

  lemma {:induction false} BegunConns(
      srv: Server, w: World, w': World, v: World, v': World, c: nat, rid: nat, request: Request, now: string, tenant: string)
    requires forall d :: d in w.conns ==> d in w'.conns && TwinConn(srv, w, w.conns[d], w'.conns[d], tenant)
    requires AllKnown(w) && srv.castUuid(request.tenant) == Some(tenant)
    requires Started(w, v, c, rid, request, now) && Started(w', v', c, rid, request, now)
    ensures forall d :: d in v.conns ==> d in v'.conns && TwinConn(srv, v, v.conns[d], v'.conns[d], tenant)
  {
    OtherConns(srv, w, w', v, v', c, tenant);
  }

  lemma {:induction false} OwnRequests(
      srv: Server, w: World, w': World, v: World, v': World, c: nat, rid: nat, request: Request, now: string, tenant: string)
    requires TwinRequests(srv, w, w', tenant) && srv.castUuid(request.tenant) == Some(tenant)
    requires Started(w, v, c, rid, request, now) && Started(w', v', c, rid, request, now)
    requires rid !in w.replies && rid !in w'.replies
    ensures TwinRequests(srv, v, v', tenant)
  {
    forall x ensures x in v'.requests <==> Owned(srv, v, x, tenant) {
      assert x in w'.requests <==> Owned(srv, w, x, tenant);
    }
  }

  lemma {:induction false} TwinStep(srv: Server, w: World, w': World, s: Step, tenant: string)
    requires Both(srv, w, w', tenant)
    requires Concerns(srv, w, s, tenant) && s.Exec? && s.statement.Work? ==> DrawnApart(w.txRows, w.status, s.statement.uuid, tenant)
    ensures Concerns(srv, w, s, tenant) ==> Enabled(w', s) && Twin(srv, Next(srv, w, s), Next(srv, w', s), tenant)
    ensures !Concerns(srv, w, s, tenant) ==> Twin(srv, Next(srv, w, s), w', tenant)
  {
    if Concerns(srv, w, s, tenant) {
      if s.Exec? {
        OwnExecEnabled(srv, w, w', s.c, s.rid, s.statement, tenant);
        OwnExec(srv, w, w', s.c, s.rid, s.statement, tenant);
      } else {
        PoolEnabled(srv, w, w', s, tenant);
        if s.Begin? {
          UsedByKnown(srv, w);
          BeginShape(srv, w, s);
          BeginShape(srv, w', s);
          OwnBegin(srv, w, w', Next(srv, w, s), Next(srv, w', s), s.c, s.rid, s.request, s.now, tenant);
        } else {
          OwnPool(srv, w, w', s, tenant);
        }
      }
    } else if Enabled(w, s) {
      if s.Exec? {
        OtherExec(srv, w, w', s.c, s.rid, s.statement, tenant);
      } else {
        UsedByKnown(srv, w);
        BeginShape(srv, w, s);
        OtherBegin(srv, w, w', Next(srv, w, s), s.c, s.rid, s.request, s.now, tenant);
      }
    }
  }

  lemma {:induction false} RunSnoc(srv: Server, steps: seq<Step>, s: Step)
    ensures Run(srv, INITIAL, steps + [s]) == Next(srv, Run(srv, INITIAL, steps), s)
    ensures Valid(srv, INITIAL, steps + [s]) <==> Valid(srv, INITIAL, steps) && Enabled(Run(srv, INITIAL, steps), s)
  {
    assert (steps + [s])[..|steps|] == steps;
  }

  lemma {:induction false} TwinRun(srv: Server, steps: seq<Step>, tenant: string)
    requires DrawsApart(srv, steps, tenant)
    ensures Valid(srv, INITIAL, Purge(srv, steps, tenant))
    ensures Twin(srv, Run(srv, INITIAL, steps), Run(srv, INITIAL, Purge(srv, steps, tenant)), tenant)
  {
    if steps != [] {
      var before, s := steps[..|steps| - 1], steps[|steps| - 1];
      var purged := Purge(srv, before, tenant);
      TwinRun(srv, before, tenant);
      InvRun(srv, before);
      InvRun(srv, purged);
      TwinStep(srv, Run(srv, INITIAL, before), Run(srv, INITIAL, purged), s, tenant);
      RunSnoc(srv, purged, s);
      assert purged + [] == purged;
    }
  }

  /**
   * After any interleaving of any requests of any tenants, take out the requests of the others:
   * what is left is a run, and it leaves this tenant the same ledger (every field and hash but the
   * id), the same transactions and balance, and the same reply to each of its requests.
   */
  lemma {:induction false} NonInterference(srv: Server, steps: seq<Step>, tenant: string)
    requires DrawsApart(srv, steps, tenant)
    ensures Valid(srv, INITIAL, Purge(srv, steps, tenant))
    ensures var w, w' := Run(srv, INITIAL, steps), Run(srv, INITIAL, Purge(srv, steps, tenant));
      && WithoutIds(Ledger(w, tenant)) == WithoutIds(Ledger(w', tenant))
      && Select(w.txRows, w.status, -1, tenant) == Select(w'.txRows, w'.status, -1, tenant)
      && BalanceOf(w, tenant) == BalanceOf(w', tenant)
      && (forall rid :: rid in w'.requests <==> Owned(srv, w, rid, tenant))
      && (forall rid :: Owned(srv, w, rid, tenant) ==>
            && (rid in w.replies <==> rid in w'.replies)
            && (rid in w.replies ==> SameOutcome(w.replies[rid], w'.replies[rid])))
  {
    TwinRun(srv, steps, tenant);
    InvRun(srv, steps);
    InvRun(srv, Purge(srv, steps, tenant));
    TwinReads(srv, Run(srv, INITIAL, steps), Run(srv, INITIAL, Purge(srv, steps, tenant)), -1, tenant);
  }

  /** The insert of a request has gone through. */
  predicate Went(w: World, c: nat) {
    c in w.conns && w.conns[c].tx.Some? && w.conns[c].tx.value.pc.Worked?
  }

  /** An insert goes through exactly when its values fit and its id is free. */
  lemma {:induction false} TransferDone(srv: Server, w: World, c: nat, rid: nat, uuid: string, tenant: string)
    requires PoolInv(srv, w) && Owned(srv, w, rid, tenant) && w.requests[rid].Transfer? && Enabled(w, Exec(c, rid, Work(uuid)))
    ensures Went(DoWork(srv, w, c, rid, uuid), c)
       <==> NewTx(w.requests[rid], rid, uuid, tenant).Some? && !IdTaken(w.txRows, w.status, uuid)
  {
    assert ConnOk(srv, w, w.conns[c]);
    WorkShape(srv, w, c, rid, uuid);
    TransferEffect(srv, w, DoWork(srv, w, c, rid, uuid), c, rid, uuid, tenant);
  }

  lemma {:induction false} TakenIffForeign(srv: Server, w: World, w': World, uuid: string, tenant: string)
    requires Both(srv, w, w', tenant) && !IdTaken(w'.txRows, w'.status, uuid)
    ensures IdTaken(w.txRows, w.status, uuid) <==> !DrawnApart(w.txRows, w.status, uuid, tenant)
  {
    if DrawnApart(w.txRows, w.status, uuid, tenant) {
      SameIdTaken(srv, w, w', uuid, tenant);
    } else {
      var r :| r in w.txRows && r.data.id == uuid && StatusOf(w.status, r.xid) == Committed && r.tenant != tenant;
      var i :| 0 <= i < |w.txRows| && w.txRows[i] == r;
    }
  }

  /**
   * The one thing another tenant can do: hold the very id that is drawn. Primary keys are checked
   * across tenants, so an insert that goes through in the purged run fails in the run itself if
   * and only if a committed row of another tenant has its id.
   */
  lemma {:induction false} OnlyATakenIdInterferes(srv: Server, w: World, w': World, c: nat, rid: nat, uuid: string, tenant: string)
    requires Both(srv, w, w', tenant) && Owned(srv, w, rid, tenant) && w.requests[rid].Transfer?
    requires Enabled(w, Exec(c, rid, Work(uuid))) && Enabled(w', Exec(c, rid, Work(uuid)))
    requires Went(DoWork(srv, w', c, rid, uuid), c)
    ensures !Went(DoWork(srv, w, c, rid, uuid), c) <==> !DrawnApart(w.txRows, w.status, uuid, tenant)
  {
    assert Owned(srv, w', rid, tenant) && w'.requests[rid] == w.requests[rid];
    TransferDone(srv, w, c, rid, uuid, tenant);
    TransferDone(srv, w', c, rid, uuid, tenant);
    TakenIffForeign(srv, w, w', uuid, tenant);
  }
}
