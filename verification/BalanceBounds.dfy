/** What a balance is worth: the stored cents, and how far they are from the amounts requested. */
module BalanceBounds {
  import opened Common
  import opened Database
  import opened LedgerInvariants
  import opened HashChain
  import opened NonInterference

  function AmountOf(requests: map<nat, Request>, xid: nat): real {
    if xid in requests && requests[xid].Transfer? then requests[xid].amount else 0.0
  }

  /** The exact sum of the amounts whose transfers are among these rows. */
  function Requested(requests: map<nat, Request>, rows: seq<Row<TxData>>): real {
    if rows == [] then 0.0 else Requested(requests, rows[..|rows| - 1]) + AmountOf(requests, rows[|rows| - 1].xid)
  }

  /** Rounding is to the nearest integer, halves away from zero, and is odd. */
  lemma RoundIsNearest(x: real)
    ensures -0.5 <= Round(x) as real - x <= 0.5
    ensures Round(-x) == -Round(x)
    ensures x == Round(x) as real + 0.5 ==> x < 0.0
    ensures x == Round(x) as real - 0.5 ==> x > 0.0
  {
  }

  /** A positive amount is stored as zero exactly when it is below half a cent. */
  lemma ZeroCents(amount: real)
    requires amount > 0.0
    ensures Cents(amount) == Some(0) <==> amount < 0.005
    ensures Cents(amount).Some? ==> Cents(amount).value >= 0
  {
  }

  /** DECIMAL(15,2): thirteen digits before the point, and after rounding the nearest cent. */
  lemma CentsFit(amount: real)
    ensures Cents(amount).Some? <==> -9_999_999_999_999.995 < amount < 9_999_999_999_999.995
    ensures Cents(amount).Some? ==> -0.005 <= Cents(amount).value as real / 100.0 - amount <= 0.005
  {
    RoundIsNearest(amount * 100.0);
  }

  lemma {:induction false} SumBound(srv: Server, requests: map<nat, Request>, rows: seq<Row<TxData>>)
    requires forall r :: r in rows ==> TxRowOk(srv, requests, r)
    ensures -0.5 * |rows| as real <= SumCents(rows) as real - 100.0 * Requested(requests, rows) <= 0.5 * |rows| as real
  {
    if rows != [] {
      var front, r := rows[..|rows| - 1], rows[|rows| - 1];
      SumBound(srv, requests, front);
      assert TxRowOk(srv, requests, r);
      RoundIsNearest(requests[r.xid].amount * 100.0);
    }
  }

  lemma {:induction false} SumNonNegative(srv: Server, requests: map<nat, Request>, rows: seq<Row<TxData>>)
    requires forall r :: r in rows ==> TxRowOk(srv, requests, r) && requests[r.xid].amount > 0.0
    ensures SumCents(rows) >= 0
  {
    if rows != [] {
      SumNonNegative(srv, requests, rows[..|rows| - 1]);
      ZeroCents(requests[rows[|rows| - 1].xid].amount);
    }
  }

  /** Every transfer that reaches the database is of a positive amount, as the handler sees to. */
  predicate PositiveTransfers(requests: map<nat, Request>) {
    forall rid :: rid in requests && requests[rid].Transfer? ==> requests[rid].amount > 0.0
  }

  lemma {:induction false} PositiveRun(srv: Server, steps: seq<Step>)
    requires forall i :: 0 <= i < |steps| && steps[i].Begin? && steps[i].request.Transfer? ==> steps[i].request.amount > 0.0
    ensures PositiveTransfers(Run(srv, INITIAL, steps).requests)
  {
    if steps != [] {
      var before, s := steps[..|steps| - 1], steps[|steps| - 1];
      PositiveRun(srv, before);
      InvRun(srv, before);
      RequestsStep(srv, Run(srv, INITIAL, before), s);
    }
  }

  lemma {:induction false} RequestsStep(srv: Server, w: World, s: Step)
    requires PoolInv(srv, w)
    ensures Next(srv, w, s).requests == if Enabled(w, s) && s.Begin? then w.requests[s.rid := s.request] else w.requests
  {
    if Enabled(w, s) && s.Exec? {
      ExecConnOk(srv, w, s.c, s.rid, s.statement);
    }
  }

  /**
   * After any run, with n committed transfers of the tenant: the balance, in cents, is within n/2
   * of the exact sum of the amounts requested, and it is never negative.
   */
  lemma {:induction false} BalanceIsClose(srv: Server, steps: seq<Step>, tenant: string)
    ensures var w := Run(srv, INITIAL, steps); var ts := Select(w.txRows, w.status, -1, tenant);
      -0.5 * |ts| as real <= BalanceOf(w, tenant) as real - 100.0 * Requested(w.requests, ts) <= 0.5 * |ts| as real
    ensures (forall i :: 0 <= i < |steps| && steps[i].Begin? && steps[i].request.Transfer? ==> steps[i].request.amount > 0.0)
      ==> BalanceOf(Run(srv, INITIAL, steps), tenant) >= 0
  {
    InvRun(srv, steps);
    var w := Run(srv, INITIAL, steps);
    var ts := Select(w.txRows, w.status, -1, tenant);
    forall r | r in ts ensures TxRowOk(srv, w.requests, r) {
      SelectedRows(w.txRows, w.status, -1, tenant, r);
    }
    SumBound(srv, w.requests, ts);
    if forall i :: 0 <= i < |steps| && steps[i].Begin? && steps[i].request.Transfer? ==> steps[i].request.amount > 0.0 {
      PositiveRun(srv, steps);
      SumNonNegative(srv, w.requests, ts);
    }
  }

  /** What a read answers: the balance, or the ledger, of its tenant as committed at that moment. */
  function Answer(w: World, rid: nat, tenant: string): Outcome
    requires rid in w.requests && !w.requests[rid].Transfer?
  {
    if w.requests[rid].Balance? then Sum(BalanceOf(w, tenant)) else Rows(Ledger(w, tenant))
  }

  lemma {:induction false} ReadsAnswer(srv: Server, w: World, c: nat, rid: nat, uuid: string, tenant: string)
    requires Inv(srv, w) && Enabled(w, Exec(c, rid, Work(uuid))) && !w.requests[rid].Transfer?
    requires Owned(srv, w, rid, tenant) && w.requests[rid].tenant != ""
    ensures var v := DoWork(srv, w, c, rid, uuid);
      c in v.conns && v.conns[c].tx.Some? && v.conns[c].tx.value.outcome == Answer(w, rid, tenant)
  {
    var v := DoWork(srv, w, c, rid, uuid);
    assert ConnOk(srv, w, w.conns[c]) && ProgressOk(w, w.conns[c].tx.value);
    WorkShape(srv, w, c, rid, uuid);
    ReadEffect(srv, w, v, c, rid, uuid, tenant);
    FindIsSound(w.txRows, rid);
    FindIsSound(w.auditRows, rid);
    SelectSame(w.txRows, w.status, rid, w.status, -1, tenant);
    SelectSame(w.auditRows, w.status, rid, w.status, -1, tenant);
  }

  // ----- what moves a balance

  /** All tenants find the same committed rows. */
  ghost predicate SameCommitted(w: World, w': World) {
    forall tenant ::
      && Ledger(w', tenant) == Ledger(w, tenant)
      && Select(w'.txRows, w'.status, -1, tenant) == Select(w.txRows, w.status, -1, tenant)
  }

  predicate IsCommit(s: Step) {
    s.Exec? && s.statement.Commit?
  }

  /** Only what rows are worth, and whether they are committed, matters to anyone outside. */
  lemma {:induction false} SameRowsSameCommitted(srv: Server, w: World, w': World)
    requires RowsInv(srv, w) && w'.txRows == w.txRows && w'.auditRows == w.auditRows
    requires forall x :: x in w.requests ==> (StatusOf(w.status, x) == Committed <==> StatusOf(w'.status, x) == Committed)
    ensures SameCommitted(w, w')
  {
    forall tenant
      ensures Ledger(w', tenant) == Ledger(w, tenant)
      ensures Select(w'.txRows, w'.status, -1, tenant) == Select(w.txRows, w.status, -1, tenant)
    {
      assert forall r :: r in w.auditRows ==> AuditRowOk(srv, w.requests, r);
      assert forall r :: r in w.txRows ==> TxRowOk(srv, w.requests, r);
      SelectSame(w.auditRows, w.status, -1, w'.status, -1, tenant);
      SelectSame(w.txRows, w.status, -1, w'.status, -1, tenant);
    }
  }

  lemma {:induction false} QuietWork(srv: Server, w: World, c: nat, rid: nat, uuid: string)
    requires Inv(srv, w) && Enabled(w, Exec(c, rid, Work(uuid)))
    ensures SameCommitted(w, DoWork(srv, w, c, rid, uuid))
  {
    var v := DoWork(srv, w, c, rid, uuid);
    assert ConnOk(srv, w, w.conns[c]);
    WorkShape(srv, w, c, rid, uuid);
    WorkAppends(srv, w, v, c, rid, uuid);
    forall tenant ensures Select(v.txRows, v.status, -1, tenant) == Select(w.txRows, w.status, -1, tenant) {
      if v.txRows != w.txRows {
        SelectAppend(w.txRows, v.txRows[|w.txRows|], w.status, -1, tenant);
      }
    }
  }

  lemma {:induction false} QuietAudit(srv: Server, w: World, c: nat, rid: nat)
    requires Inv(srv, w) && Enabled(w, Exec(c, rid, Audit))
    ensures SameCommitted(w, DoAudit(srv, w, c, rid))
  {
    var v := DoAudit(srv, w, c, rid);
    assert ConnOk(srv, w, w.conns[c]);
    var r := AuditAppends(srv, w, c, rid);
    forall tenant ensures Ledger(v, tenant) == Ledger(w, tenant) {
      SelectAppend(w.auditRows, r, w.status, -1, tenant);
    }
  }

  /** No step but a commit changes what anyone finds committed. */
  lemma {:induction false} QuietStep(srv: Server, w: World, s: Step)
    requires Inv(srv, w) && !IsCommit(s)
    ensures SameCommitted(w, Next(srv, w, s))
  {
    if !Enabled(w, s) {
    } else if s.Exec? {
      if s.statement.Work? {
        QuietWork(srv, w, s.c, s.rid, s.statement.uuid);
      } else if s.statement.Audit? {
        QuietAudit(srv, w, s.c, s.rid);
      } else {
        assert ConnOk(srv, w, w.conns[s.c]);
        ExecShape(srv, w, s.c, s.rid, s.statement);
        SameRowsSameCommitted(srv, w, Next(srv, w, s));
      }
    } else {
      SameRowsSameCommitted(srv, w, Next(srv, w, s));
    }
  }

  lemma {:induction false} QuietRun(srv: Server, steps: seq<Step>, n: nat)
    requires n <= |steps| && forall i :: n <= i < |steps| ==> !IsCommit(steps[i])
    ensures SameCommitted(Run(srv, INITIAL, steps[..n]), Run(srv, INITIAL, steps))
  {
    if n == |steps| {
      assert steps[..n] == steps;
    } else {
      var before := steps[..|steps| - 1];
      QuietRun(srv, before, n);
      assert before[..n] == steps[..n];
      InvRun(srv, before);
      QuietStep(srv, Run(srv, INITIAL, before), steps[|steps| - 1]);
    }
  }

  lemma {:induction false} SumAppend(rows: seq<Row<TxData>>, r: Row<TxData>)
    ensures SumCents(rows + [r]) == SumCents(rows) + r.data.cents
  {
    assert (rows + [r])[..|rows|] == rows;
  }

  lemma {:induction false} SumSelect(rows: seq<Row<TxData>>, r: Row<TxData>, status: map<nat, TxStatus>, tenant: string)
    ensures SumCents(Select(rows + [r], status, -1, tenant))
         == SumCents(Select(rows, status, -1, tenant)) + if r.tenant == tenant && StatusOf(status, r.xid) == Committed then r.data.cents else 0
  {
    SelectAppend(rows, r, status, -1, tenant);
    SumAppend(Select(rows, status, -1, tenant), r);
    assert Select(rows, status, -1, tenant) + [] == Select(rows, status, -1, tenant);
  }

  lemma {:induction false} SumCommit(rows: seq<Row<TxData>>, status: map<nat, TxStatus>, rid: nat, tenant: string)
    requires OnePerTransaction(rows) && StatusOf(status, rid) != Committed
    ensures var found := FindRow(rows, rid);
      SumCents(Select(rows, status[rid := Committed], -1, tenant))
      == SumCents(Select(rows, status, -1, tenant)) + if found.Some? && found.value.tenant == tenant then found.value.data.cents else 0
  {
    if rows != [] {
      var front, r := rows[..|rows| - 1], rows[|rows| - 1];
      assert rows == front + [r];
      SumSelect(front, r, status, tenant);
      SumSelect(front, r, status[rid := Committed], tenant);
      if r.xid == rid {
        SelectSame(front, status, -1, status[rid := Committed], -1, tenant);
      } else {
        SumCommit(front, status, rid, tenant);
      }
    }
  }

  /** What request `rid` is worth to a tenant. */
  function Worth(srv: Server, w: World, rid: nat, tenant: string): int
    requires rid in w.requests
  {
    var q := w.requests[rid];
    if q.Transfer? && srv.castUuid(q.tenant) == Some(tenant) && Cents(q.amount).Some? then Cents(q.amount).value else 0
  }

  /** A commit moves one balance, that of its tenant, by the amount of its request in cents. */
  lemma {:induction false} CommitMovesBalance(srv: Server, w: World, c: nat, rid: nat, acknowledged: bool, tenant: string)
    requires Inv(srv, w) && Enabled(w, Exec(c, rid, Commit(acknowledged)))
    ensures BalanceOf(Next(srv, w, Exec(c, rid, Commit(acknowledged))), tenant) == BalanceOf(w, tenant) + Worth(srv, w, rid, tenant)
  {
    assert ConnOk(srv, w, w.conns[c]) && ProgressOk(w, w.conns[c].tx.value);
    ExecShape(srv, w, c, rid, Commit(acknowledged));
    SumCommit(w.txRows, w.status, rid, tenant);
    FindIsSound(w.txRows, rid);
    if FindRow(w.txRows, rid).Some? {
      assert TxRowOk(srv, w.requests, FindRow(w.txRows, rid).value);
    }
  }

  /** The worth to a tenant of all commits of a run. */
  ghost function CommittedWorth(srv: Server, steps: seq<Step>, tenant: string): int {
    if steps == [] then 0
    else
      var before, s := steps[..|steps| - 1], steps[|steps| - 1];
      var w := Run(srv, INITIAL, before);
      CommittedWorth(srv, before, tenant) + if IsCommit(s) && Enabled(w, s) then Worth(srv, w, s.rid, tenant) else 0
  }

  /** Conservation: after any run the balance is the sum of the committed transfers, each counted once. */
  lemma {:induction false} BalanceIsConserved(srv: Server, steps: seq<Step>, tenant: string)
    ensures BalanceOf(Run(srv, INITIAL, steps), tenant) == CommittedWorth(srv, steps, tenant)
  {
    if steps != [] {
      var before, s := steps[..|steps| - 1], steps[|steps| - 1];
      var w := Run(srv, INITIAL, before);
      BalanceIsConserved(srv, before, tenant);
      InvRun(srv, before);
      if IsCommit(s) {
        if Enabled(w, s) {
          CommitMovesBalance(srv, w, s.c, s.rid, s.statement.acknowledged, tenant);
        }
      } else {
        QuietStep(srv, w, s);
      }
    }
  }
}
