/** Runs that show the conditions of the chain theorems at work: overlaps, an overlap undone, two tenants. */
module OverlapRuns {
  import opened Common
  import opened Database
  import opened LedgerInvariants
  import opened HashChain
  import opened NonInterference
  import opened ChainVerifier

  /** A tenant's name that the database accepts, and a gateway with a secret. */
  predicate Accepted(srv: Server, name: string, tenant: string) {
    name != "" && srv.castUuid(name) == Some(tenant) && srv.auditSecret != ""
  }

  predicate Reaches(srv: Server, steps: seq<Step>) {
    Database.Valid(srv, INITIAL, steps)
  }

  // ----- a balance request, step by step

  function Preparation(c: nat, rid: nat, q: Request, now: string): seq<Step> {
    [Begin(c, rid, q, now), Exec(c, rid, SetTenant), Exec(c, rid, SetSecret), Exec(c, rid, Work(""))]
  }

  /** The transaction of `rid` is under way on `c` with its context set; nothing else has changed. */
  ghost predicate Prepared(srv: Server, w: World, v: World, c: nat, rid: nat, q: Request, pc: Pc) {
    && c in w.conns && Runs(v, c, rid) && v.conns == w.conns[c := v.conns[c]]
    && v.requests == w.requests[rid := q] && v.status == w.status[rid := InProgress]
    && v.txRows == w.txRows && v.auditRows == w.auditRows
    && v.conns[c].tx.value.pc == pc && (pc.Worked? ==> v.conns[c].tx.value.local == Settings(Text(q.tenant), Text(srv.auditSecret)))
  }

  lemma {:induction false} SetsContext(srv: Server, w: World, c: nat, rid: nat, q: Request, now: string)
    requires Idle(w, c) && rid !in w.requests
    ensures var v := Next(srv, w, Begin(c, rid, q, now));
      var x := Next(srv, v, Exec(c, rid, SetTenant));
      var y := Next(srv, x, Exec(c, rid, SetSecret));
      && Enabled(w, Begin(c, rid, q, now)) && Enabled(v, Exec(c, rid, SetTenant)) && Enabled(x, Exec(c, rid, SetSecret))
      && Prepared(srv, w, y, c, rid, q, SecretSet)
      && y.conns[c].tx.value.local == Settings(Text(q.tenant), Text(srv.auditSecret))
  {
  }

  lemma {:induction false} ReadsBalance(srv: Server, w: World, y: World, c: nat, rid: nat, q: Request)
    requires Prepared(srv, w, y, c, rid, q, SecretSet) && q.Balance? && srv.castUuid(q.tenant).Some?
    requires y.conns[c].tx.value.local == Settings(Text(q.tenant), Text(srv.auditSecret))
    ensures Enabled(y, Exec(c, rid, Work(""))) && Prepared(srv, w, Next(srv, y, Exec(c, rid, Work(""))), c, rid, q, Worked)
  {
    WorkShape(srv, y, c, rid, "");
  }

  lemma {:induction false} Prepares(srv: Server, steps: seq<Step>, c: nat, rid: nat, q: Request, now: string)
    requires Reaches(srv, steps) && q.Balance? && srv.castUuid(q.tenant).Some?
    requires Idle(Run(srv, INITIAL, steps), c) && rid !in Run(srv, INITIAL, steps).requests
    ensures var all := steps + Preparation(c, rid, q, now);
      Reaches(srv, all) && Prepared(srv, Run(srv, INITIAL, steps), Run(srv, INITIAL, all), c, rid, q, Worked)
  {
    var w := Run(srv, INITIAL, steps);
    var p := Preparation(c, rid, q, now);
    SetsContext(srv, w, c, rid, q, now);
    RunSnoc(srv, steps, p[0]);
    RunSnoc(srv, steps + [p[0]], p[1]);
    RunSnoc(srv, steps + [p[0]] + [p[1]], p[2]);
    ReadsBalance(srv, w, Run(srv, INITIAL, steps + [p[0]] + [p[1]] + [p[2]]), c, rid, q);
    RunSnoc(srv, steps + [p[0]] + [p[1]] + [p[2]], p[3]);
    assert steps + p == steps + [p[0]] + [p[1]] + [p[2]] + [p[3]];
  }

  /** A successful audit insert of the transaction on `c`: a row that starts the chain of its tenant. */
  ghost predicate StartsChain(srv: Server, w: World, v: World, c: nat, rid: nat, r: Row<AuditData>, tenant: string) {
    && v.auditRows == w.auditRows + [r] && r.xid == rid && r.tenant == tenant && r.data.prevHash == Genesis()
    && v.requests == w.requests && v.status == w.status && c in v.conns && v.conns == w.conns[c := v.conns[c]]
    && Enabled(v, Exec(c, rid, Commit(true)))
  }

  /** The transaction may audit, for this tenant, which has no row that it can see. */
  predicate MayStart(srv: Server, w: World, c: nat, rid: nat, tenant: string) {
    && Runs(w, c, rid) && w.conns[c].tx.value.pc.Worked? && w.requests[rid].Balance?
    && w.conns[c].tx.value.local == Settings(Text(w.requests[rid].tenant), Text(srv.auditSecret))
    && Accepted(srv, w.requests[rid].tenant, tenant) && Select(w.auditRows, w.status, rid, tenant) == []
  }

  lemma {:induction false} AuditStarts(srv: Server, w: World, c: nat, rid: nat, tenant: string) returns (r: Row<AuditData>)
    requires MayStart(srv, w, c, rid, tenant)
    ensures Enabled(w, Exec(c, rid, Audit)) && StartsChain(srv, w, Next(srv, w, Exec(c, rid, Audit)), c, rid, r, tenant)
  {
    AuditShape(srv, w, c, rid);
    AuditEffect(srv, w, DoAudit(srv, w, c, rid), c, rid, tenant);
    r := DoAudit(srv, w, c, rid).auditRows[|w.auditRows|];
  }

  lemma {:induction false} Audits(srv: Server, steps: seq<Step>, c: nat, rid: nat, tenant: string) returns (r: Row<AuditData>)
    requires Reaches(srv, steps) && MayStart(srv, Run(srv, INITIAL, steps), c, rid, tenant)
    ensures var all := steps + [Exec(c, rid, Audit)];
      Reaches(srv, all) && StartsChain(srv, Run(srv, INITIAL, steps), Run(srv, INITIAL, all), c, rid, r, tenant)
  {
    r := AuditStarts(srv, Run(srv, INITIAL, steps), c, rid, tenant);
    RunSnoc(srv, steps, Exec(c, rid, Audit));
  }

  // ----- two requests whose audit rows are both pending

  function TwoConnections(): seq<Step> {
    [Open(0), Open(1)]
  }

  lemma {:induction false} TwoIdle(srv: Server)
    ensures var w := Run(srv, INITIAL, TwoConnections());
      && Reaches(srv, TwoConnections()) && Idle(w, 0) && Idle(w, 1) && w.requests == map[] && w.status == map[] && w.auditRows == []
  {
    RunSnoc(srv, [], Open(0));
    RunSnoc(srv, [Open(0)], Open(1));
    assert [] + [Open(0)] == [Open(0)] && [Open(0)] + [Open(1)] == TwoConnections();
  }

  /** Rows `r` and `s` of requests 0 and 1 are written one after the other, and neither is committed. */
  ghost predicate BothPending(srv: Server, steps: seq<Step>, r: Row<AuditData>, s: Row<AuditData>, t0: string, t1: string) {
    var w := Run(srv, INITIAL, steps);
    && Reaches(srv, steps) && w.auditRows == [r, s] && r.xid == 0 && s.xid == 1 && r.tenant == t0 && s.tenant == t1
    && r.data.prevHash == Genesis() && s.data.prevHash == Genesis()
    && w.status == map[0 := InProgress, 1 := InProgress]
    && Enabled(w, Exec(0, 0, Commit(true))) && Enabled(w, Exec(1, 1, Commit(true)))
  }

  /** The step that writes the second row. */
  predicate SecondAudit(srv: Server, steps: seq<Step>, n: nat, r: Row<AuditData>, tenant: string) {
    n < |steps| && steps[n] == Exec(1, 1, Audit) && Run(srv, INITIAL, steps[..n]).auditRows == [r]
    && AuditsFor(srv, Run(srv, INITIAL, steps[..n]), steps[n], tenant)
    && StatusOf(Run(srv, INITIAL, steps[..n]).status, 0) == InProgress
  }

  lemma {:induction false} TwoPrepared(srv: Server, a: string, b: string, sub: string, now: string) returns (steps: seq<Step>)
    requires srv.castUuid(a).Some? && srv.castUuid(b).Some?
    ensures var w := Run(srv, INITIAL, steps);
      && Reaches(srv, steps) && w.auditRows == [] && w.status == map[0 := InProgress, 1 := InProgress]
      && w.requests == map[0 := Balance(a, sub), 1 := Balance(b, sub)] && Runs(w, 0, 0) && Runs(w, 1, 1)
      && w.conns[0].tx.value.pc.Worked? && w.conns[0].tx.value.local == Settings(Text(a), Text(srv.auditSecret))
      && w.conns[1].tx.value.pc.Worked? && w.conns[1].tx.value.local == Settings(Text(b), Text(srv.auditSecret))
  {
    TwoIdle(srv);
    Prepares(srv, TwoConnections(), 0, 0, Balance(a, sub), now);
    var one := TwoConnections() + Preparation(0, 0, Balance(a, sub), now);
    Prepares(srv, one, 1, 1, Balance(b, sub), now);
    steps := one + Preparation(1, 1, Balance(b, sub), now);
  }

  lemma {:induction false} NothingSeen(rows: seq<Row<AuditData>>, status: map<nat, TxStatus>, self: int, tenant: string)
    requires forall r :: r in rows ==> StatusOf(status, r.xid) != Committed && r.xid != self
    ensures Select(rows, status, self, tenant) == []
  {
    if rows != [] {
      assert rows[|rows| - 1] in rows;
      NothingSeen(rows[..|rows| - 1], status, self, tenant);
    }
  }

  lemma {:induction false} Overlap(srv: Server, a: string, b: string, t0: string, t1: string, sub: string, now: string)
    returns (steps: seq<Step>, n: nat, r: Row<AuditData>, s: Row<AuditData>)
    requires Accepted(srv, a, t0) && Accepted(srv, b, t1)
    ensures BothPending(srv, steps, r, s, t0, t1) && SecondAudit(srv, steps, n, r, t1)
  {
    var ready := TwoPrepared(srv, a, b, sub, now);
    r := Audits(srv, ready, 0, 0, t0);
    var first := ready + [Exec(0, 0, Audit)];
    NothingSeen([r], Run(srv, INITIAL, first).status, 1, t1);
    s := Audits(srv, first, 1, 1, t1);
    steps, n := first + [Exec(1, 1, Audit)], |first|;
    assert steps[..n] == first;
  }

  // ----- how it may end

  lemma {:induction false} EndIsTaken(srv: Server, steps: seq<Step>, c: nat, rid: nat, statement: Statement)
    requires Reaches(srv, steps) && Enabled(Run(srv, INITIAL, steps), Exec(c, rid, statement)) && Ends(statement)
    ensures Reaches(srv, steps + [Exec(c, rid, statement)])
    ensures Ended(Run(srv, INITIAL, steps), Run(srv, INITIAL, steps + [Exec(c, rid, statement)]), c, rid, statement)
  {
    RunSnoc(srv, steps, Exec(c, rid, statement));
    EndsShape(srv, Run(srv, INITIAL, steps), c, rid, statement);
  }

  /** Both commit, the first one first. */
  lemma {:induction false} BothCommit(srv: Server, steps: seq<Step>, r: Row<AuditData>, s: Row<AuditData>, t0: string, t1: string)
    requires BothPending(srv, steps, r, s, t0, t1)
    ensures var all := steps + [Exec(0, 0, Commit(true))] + [Exec(1, 1, Commit(true))]; var w := Run(srv, INITIAL, all);
      Reaches(srv, all) && w.auditRows == [r, s] && w.status == map[0 := Committed, 1 := Committed]
  {
    EndIsTaken(srv, steps, 0, 0, Commit(true));
    EndIsTaken(srv, steps + [Exec(0, 0, Commit(true))], 1, 1, Commit(true));
  }

  lemma {:induction false} NotSerial(srv: Server, steps: seq<Step>, more: seq<Step>, n: nat, r: Row<AuditData>, tenant: string)
    requires SecondAudit(srv, steps, n, r, tenant) && r.tenant == tenant && r.xid == 0
    ensures !Serial(srv, steps + more, tenant)
  {
    assert (steps + more)[..n] == steps[..n] && (steps + more)[n] == steps[n];
    assert r in Run(srv, INITIAL, steps[..n]).auditRows;
    if Serial(srv, steps + more, tenant) {
      SerialAt(srv, steps + more, tenant, n);
    }
  }

  lemma {:induction false} TwoRows(r: Row<AuditData>, s: Row<AuditData>, status: map<nat, TxStatus>, tenant: string)
    ensures Select([r, s], status, -1, tenant)
         == (if r.tenant == tenant && StatusOf(status, r.xid) == Committed then [r] else [])
            + (if s.tenant == tenant && StatusOf(status, s.xid) == Committed then [s] else [])
  {
    SelectAppend([], r, status, -1, tenant);
    SelectAppend([r], s, status, -1, tenant);
    assert [] + [r] == [r] && [r] + [s] == [r, s];
  }

  /**
   * The overlap that breaks a chain, for any tenant: two requests write their audit rows while both are
   * open, and both commit. Both rows start the chain, so it holds only if the first hashes to the zero hash.
   */
  lemma {:induction false} OverlapBreaksChain(srv: Server, name: string, tenant: string, sub: string, now: string)
    returns (steps: seq<Step>)
    requires Accepted(srv, name, tenant)
    ensures Reaches(srv, steps) && !Serial(srv, steps, tenant)
    ensures var l := Ledger(Run(srv, INITIAL, steps), tenant);
      |l| == 2 && l[0].data.prevHash == l[1].data.prevHash == Genesis() && (Linked(l) <==> l[0].data.blockHash == Genesis())
  {
    var pending, n, r, s := Overlap(srv, name, name, tenant, tenant, sub, now);
    BothCommit(srv, pending, r, s, tenant, tenant);
    steps := pending + [Exec(0, 0, Commit(true))] + [Exec(1, 1, Commit(true))];
    assert steps == pending + [Exec(0, 0, Commit(true)), Exec(1, 1, Commit(true))];
    NotSerial(srv, pending, [Exec(0, 0, Commit(true)), Exec(1, 1, Commit(true))], n, r, tenant);
    TwoRows(r, s, Run(srv, INITIAL, steps).status, tenant);
    LinkedAppend([r], s);
    LinkedAppend([], r);
    assert [] + [r] == [r] && [r] + [s] == [r, s];
  }

  /** The same overlap does no harm when the first transaction is rolled back. */
  lemma {:induction false} OverlapUndone(srv: Server, name: string, tenant: string, sub: string, now: string)
    returns (steps: seq<Step>)
    requires Accepted(srv, name, tenant)
    ensures Reaches(srv, steps) && !Serial(srv, steps, tenant)
    ensures |Ledger(Run(srv, INITIAL, steps), tenant)| == 1 && Linked(Ledger(Run(srv, INITIAL, steps), tenant))
  {
    var pending, n, r, s := Overlap(srv, name, name, tenant, tenant, sub, now);
    var w := Run(srv, INITIAL, pending);
    var lost := pending + [Exec(0, 0, Lost)];
    RunSnoc(srv, pending, Exec(0, 0, Lost));
    ExecShape(srv, w, 0, 0, Lost);
    EndIsTaken(srv, lost, 0, 0, Rollback);
    EndIsTaken(srv, lost + [Exec(0, 0, Rollback)], 1, 1, Commit(true));
    steps := lost + [Exec(0, 0, Rollback)] + [Exec(1, 1, Commit(true))];
    assert steps == pending + [Exec(0, 0, Lost), Exec(0, 0, Rollback), Exec(1, 1, Commit(true))];
    NotSerial(srv, pending, [Exec(0, 0, Lost), Exec(0, 0, Rollback), Exec(1, 1, Commit(true))], n, r, tenant);
    TwoRows(r, s, Run(srv, INITIAL, steps).status, tenant);
    LinkedAppend([], s);
    assert [] + [s] == [s];
  }

  /** Two tenants with a row each: each one's ledger passes the verify-chain loop, their common table does not. */
  lemma {:induction false} TwoTenantsFail(srv: Server, a: string, b: string, t0: string, t1: string, sub: string, now: string)
    returns (steps: seq<Step>)
    requires Accepted(srv, a, t0) && Accepted(srv, b, t1) && t0 != t1
    ensures Reaches(srv, steps)
    ensures var w := Run(srv, INITIAL, steps);
      && |Table(w)| == 2 && |Ledger(w, t0)| == 1 && |Ledger(w, t1)| == 1 && Verdict(Ledger(w, t0)) && Verdict(Ledger(w, t1))
      && (Verdict(Table(w)) <==> Trim(Table(w)[0].data.blockHash) == Trim(Genesis()))
  {
    var pending, n, r, s := Overlap(srv, a, b, t0, t1, sub, now);
    BothCommit(srv, pending, r, s, t0, t1);
    steps := pending + [Exec(0, 0, Commit(true))] + [Exec(1, 1, Commit(true))];
    var w := Run(srv, INITIAL, steps);
    TwoRows(r, s, w.status, t0);
    TwoRows(r, s, w.status, t1);
    TwoCommitted(r, s, w.status);
    assert StepHolds([r], 0) && StepHolds([s], 0) && StepHolds([r, s], 0);
    assert StepHolds([r, s], 1) <==> Trim(s.data.prevHash) == Trim(r.data.blockHash);
  }

  lemma {:induction false} TwoCommitted(r: Row<AuditData>, s: Row<AuditData>, status: map<nat, TxStatus>)
    requires StatusOf(status, r.xid) == Committed && StatusOf(status, s.xid) == Committed
    ensures CommittedRows([r, s], status) == [r, s]
  {
    assert [r, s][..1] == [r] && [r][..0] == [];
    assert CommittedRows([r], status) == [r];
  }
}
