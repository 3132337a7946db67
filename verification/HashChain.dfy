/** The per-tenant hash chain over runs, and the append-only growth of the tables. */
module HashChain {
  import opened Common
  import opened Database
  import opened LedgerInvariants

  // ----- selecting rows

  lemma {:induction false} SelectAppend<D>(rows: seq<Row<D>>, r: Row<D>, status: map<nat, TxStatus>, self: int, tenant: string)
    ensures Select(rows + [r], status, self, tenant)
         == Select(rows, status, self, tenant)
            + if r.tenant == tenant && (StatusOf(status, r.xid) == Committed || r.xid == self) then [r] else []
  {
    assert (rows + [r])[..|rows|] == rows;
  }

  /** Only what the tenant's rows are worth matters. */
  lemma {:induction false} SelectSame<D>(
      rows: seq<Row<D>>, status: map<nat, TxStatus>, self: int, status': map<nat, TxStatus>, self': int, tenant: string)
    requires forall r :: r in rows && r.tenant == tenant ==>
      (StatusOf(status, r.xid) == Committed || r.xid == self <==> StatusOf(status', r.xid) == Committed || r.xid == self')
    ensures Select(rows, status, self, tenant) == Select(rows, status', self', tenant)
  {
    if rows != [] {
      assert rows[|rows| - 1] in rows;
      SelectSame(rows[..|rows| - 1], status, self, status', self', tenant);
    }
  }

  predicate Increasing(rows: seq<Row<AuditData>>) {
    forall i, j :: 0 <= i < j < |rows| ==> rows[i].data.id < rows[j].data.id
  }

  lemma {:induction false} SelectIncreasing(rows: seq<Row<AuditData>>, status: map<nat, TxStatus>, self: int, tenant: string)
    requires Increasing(rows)
    ensures Increasing(Select(rows, status, self, tenant))
  {
    if rows != [] {
      var front := rows[..|rows| - 1];
      SelectIncreasing(front, status, self, tenant);
      forall r | r in Select(front, status, self, tenant) ensures r.data.id < rows[|rows| - 1].data.id {
        SelectedRows(front, status, self, tenant, r);
      }
    }
  }

  /** In a table written in the order of its ids, the newest row is the last. */
  lemma {:induction false} NewestIsLast(rows: seq<Row<AuditData>>)
    requires Increasing(rows) && rows != []
    ensures Newest(rows) == rows[|rows| - 1]
  {
  }

  // ----- the chain

  /** What row `i` of a chain must name as the block before it. */
  function Before(rows: seq<Row<AuditData>>, i: nat): string
    requires i <= |rows|
  {
    if i == 0 then Genesis() else rows[i - 1].data.blockHash
  }

  /** Starts at the zero hash and links each row to the one before it. */
  predicate Linked(rows: seq<Row<AuditData>>) {
    forall i :: 0 <= i < |rows| ==> rows[i].data.prevHash == Before(rows, i)
  }

  predicate Recomputes(srv: Server, rows: seq<Row<AuditData>>) {
    forall i :: 0 <= i < |rows| ==> rows[i].data.blockHash == srv.hmacHex(ConcatText(srv, rows[i]), srv.auditSecret)
  }

  /** The tip of a chain. */
  function Tip(rows: seq<Row<AuditData>>): string {
    Before(rows, |rows|)
  }

  /** No row of the tenant is waiting for its transaction to end. */
  ghost predicate NonePending(rows: seq<Row<AuditData>>, status: map<nat, TxStatus>, tenant: string) {
    forall r :: r in rows && r.tenant == tenant ==> StatusOf(status, r.xid) != InProgress
  }

  predicate AuditsFor(srv: Server, w: World, s: Step, tenant: string) {
    s.Exec? && s.statement.Audit? && Enabled(w, s) && srv.castUuid(w.requests[s.rid].tenant) == Some(tenant)
  }

  /** Audit transactions of this tenant do not overlap; those of others do what they like. */
  ghost predicate Serial(srv: Server, steps: seq<Step>, tenant: string) {
    steps == [] ||
    var before := steps[..|steps| - 1];
    var w := Run(srv, INITIAL, before);
    Serial(srv, before, tenant) && (AuditsFor(srv, w, steps[|steps| - 1], tenant) ==> NonePending(w.auditRows, w.status, tenant))
  }

  lemma {:induction false} LinkedAppend(rows: seq<Row<AuditData>>, r: Row<AuditData>)
    ensures Linked(rows + [r]) <==> Linked(rows) && r.data.prevHash == Tip(rows)
  {
    var l := rows + [r];
    forall i: nat | i <= |rows| ensures Before(l, i) == Before(rows, i) {
    }
    if Linked(l) {
      forall i | 0 <= i < |rows| ensures rows[i].data.prevHash == Before(rows, i) {
        assert l[i].data.prevHash == Before(l, i);
      }
      assert l[|rows|].data.prevHash == Before(l, |rows|);
    }
  }

  /** What the trigger links a row to: the tip of the tenant's ledger as committed at that moment. */
  lemma {:induction false} TriggerSeesTip(srv: Server, w: World, c: nat, rid: nat, tenant: string)
    requires Inv(srv, w) && Enabled(w, Exec(c, rid, Audit))
    ensures LastBlockHash(Select(w.auditRows, w.status, rid, tenant)) == Tip(Ledger(w, tenant))
  {
    assert ProgressOk(w, w.conns[c].tx.value);
    FindIsSound(w.auditRows, rid);
    SelectSame(w.auditRows, w.status, rid, w.status, -1, tenant);
    SelectIncreasing(w.auditRows, w.status, -1, tenant);
    if Ledger(w, tenant) != [] {
      NewestIsLast(Ledger(w, tenant));
    }
  }

  // ----- growth

  predicate IsSubsequence<T(==)>(a: seq<T>, b: seq<T>) {
    a == [] ||
    (b != [] && ((a[|a| - 1] == b[|b| - 1] && IsSubsequence(a[..|a| - 1], b[..|b| - 1])) || IsSubsequence(a, b[..|b| - 1])))
  }

  lemma {:induction false} SelectGrows<D>(rows: seq<Row<D>>, rows': seq<Row<D>>, status: map<nat, TxStatus>, status': map<nat, TxStatus>, tenant: string)
    requires rows <= rows'
    requires forall x: nat :: StatusOf(status, x) == Committed ==> StatusOf(status', x) == Committed
    ensures IsSubsequence(Select(rows, status, -1, tenant), Select(rows', status', -1, tenant))
  {
    if rows' != [] {
      var front', r := rows'[..|rows'| - 1], rows'[|rows'| - 1];
      if |rows| == |rows'| {
        assert rows == rows';
        SelectGrows(rows[..|rows| - 1], front', status, status', tenant);
      } else {
        SelectGrows(rows, front', status, status', tenant);
      }
      SubsequenceOfLonger(Select(rows, status, -1, tenant), Select(front', status', -1, tenant), r);
    }
  }

  lemma {:induction false} SubsequenceOfLonger<T>(a: seq<T>, b: seq<T>, x: T)
    ensures IsSubsequence(a, b) ==> IsSubsequence(a, b + [x]) && IsSubsequence(a + [x], b + [x])
  {
    assert (b + [x])[..|b|] == b && (a + [x])[..|a|] == a;
  }

  /** No statement of any request rewrites or removes a stored row, or takes back a commit. */
  lemma {:induction false} StepGrows(srv: Server, w: World, s: Step)
    requires Inv(srv, w)
    ensures var w' := Next(srv, w, s);
      && w.txRows <= w'.txRows && w.auditRows <= w'.auditRows
      && forall x: nat :: StatusOf(w.status, x) == Committed ==> StatusOf(w'.status, x) == Committed
  {
    if Enabled(w, s) && s.Exec? {
      assert ConnOk(srv, w, w.conns[s.c]);
      if s.statement.Audit? {
        var r := AuditAppends(srv, w, s.c, s.rid);
      } else if s.statement.Work? {
        WorkShape(srv, w, s.c, s.rid, s.statement.uuid);
      } else {
        ExecShape(srv, w, s.c, s.rid, s.statement);
      }
    }
  }

  lemma {:induction false} RunGrows(srv: Server, steps: seq<Step>, n: nat)
    requires n <= |steps|
    ensures var w, w' := Run(srv, INITIAL, steps[..n]), Run(srv, INITIAL, steps);
      && w.txRows <= w'.txRows && w.auditRows <= w'.auditRows
      && forall x: nat :: StatusOf(w.status, x) == Committed ==> StatusOf(w'.status, x) == Committed
  {
    if n == |steps| {
      assert steps[..n] == steps;
    } else {
      var before := steps[..|steps| - 1];
      RunGrows(srv, before, n);
      assert before[..n] == steps[..n];
      InvRun(srv, before);
      StepGrows(srv, Run(srv, INITIAL, before), steps[|steps| - 1]);
    }
  }

  /** Every earlier ledger stands unchanged and in order inside every later one, overlapping or not. */
  lemma {:induction false} LedgerGrows(srv: Server, steps: seq<Step>, n: nat, tenant: string)
    requires n <= |steps|
    ensures IsSubsequence(Ledger(Run(srv, INITIAL, steps[..n]), tenant), Ledger(Run(srv, INITIAL, steps), tenant))
  {
    RunGrows(srv, steps, n);
    var w, w' := Run(srv, INITIAL, steps[..n]), Run(srv, INITIAL, steps);
    SelectGrows(w.auditRows, w'.auditRows, w.status, w'.status, tenant);
  }

  // ----- when a row was written, and what its trigger saw

  /** Row `k` of the table was written by step `n`. */
  predicate WrittenAt(srv: Server, steps: seq<Step>, k: int, n: int) {
    0 <= n < |steps| && |Run(srv, INITIAL, steps[..n]).auditRows| == k && |Run(srv, INITIAL, steps[..n + 1]).auditRows| == k + 1
  }

  /** One step writes at most one audit row, and only an audit insert does. */
  lemma {:induction false} OneRowAStep(srv: Server, w: World, s: Step)
    requires Inv(srv, w)
    ensures var w' := Next(srv, w, s);
      |w'.auditRows| <= |w.auditRows| + 1 && (w'.auditRows != w.auditRows ==> Enabled(w, s) && s.Exec? && s.statement.Audit?)
  {
    if Enabled(w, s) && s.Exec? {
      assert ConnOk(srv, w, w.conns[s.c]);
      if s.statement.Audit? {
        var r := AuditAppends(srv, w, s.c, s.rid);
      } else if s.statement.Work? {
        WorkShape(srv, w, s.c, s.rid, s.statement.uuid);
      } else {
        ExecShape(srv, w, s.c, s.rid, s.statement);
      }
    }
  }

  lemma {:induction false} WriteStep(srv: Server, steps: seq<Step>, k: nat) returns (n: nat)
    requires k < |Run(srv, INITIAL, steps).auditRows|
    ensures WrittenAt(srv, steps, k, n)
  {
    var before := steps[..|steps| - 1];
    if k < |Run(srv, INITIAL, before).auditRows| {
      n := WriteStep(srv, before, k);
      assert before[..n] == steps[..n] && before[..n + 1] == steps[..n + 1];
    } else {
      n := |steps| - 1;
      InvRun(srv, before);
      OneRowAStep(srv, Run(srv, INITIAL, before), steps[n]);
      assert steps[..n + 1] == steps;
    }
  }

  /** What one audit insert writes: a row linked to the tip of its tenant's ledger as committed just then. */
  lemma {:induction false} WrittenRow(srv: Server, w: World, s: Step)
    requires Inv(srv, w) && |Next(srv, w, s).auditRows| == |w.auditRows| + 1
    ensures Enabled(w, s) && s.Exec? && s.statement.Audit?
    ensures var r := Next(srv, w, s).auditRows[|w.auditRows|];
      r.xid == s.rid && AuditRowOk(srv, w.requests, r) && r.data.prevHash == Tip(Ledger(w, r.tenant))
  {
    OneRowAStep(srv, w, s);
    assert ConnOk(srv, w, w.conns[s.c]);
    var r := AuditAppends(srv, w, s.c, s.rid);
    TriggerSeesTip(srv, w, s.c, s.rid, r.tenant);
  }

  lemma {:induction false} RowAsWritten(srv: Server, steps: seq<Step>, k: nat, n: nat)
    requires WrittenAt(srv, steps, k, n) && k < |Run(srv, INITIAL, steps).auditRows|
    ensures var w, rows := Run(srv, INITIAL, steps[..n]), Run(srv, INITIAL, steps).auditRows;
      && w.auditRows == rows[..k] && rows[k].data.prevHash == Tip(Ledger(w, rows[k].tenant))
      && Enabled(w, steps[n]) && steps[n].Exec? && steps[n].statement.Audit? && steps[n].rid == rows[k].xid
      && AuditRowOk(srv, w.requests, rows[k])
  {
    RunGrows(srv, steps, n);
    RunGrows(srv, steps, n + 1);
    InvRun(srv, steps[..n]);
    assert steps[..n + 1][..n] == steps[..n];
    WrittenRow(srv, Run(srv, INITIAL, steps[..n]), steps[n]);
  }

  /** Between two points of a run: commits stay. */
  lemma {:induction false} CommitsStay(srv: Server, steps: seq<Step>, n: nat, m: nat, xid: nat)
    requires n <= m <= |steps| && StatusOf(Run(srv, INITIAL, steps[..n]).status, xid) == Committed
    ensures StatusOf(Run(srv, INITIAL, steps[..m]).status, xid) == Committed
  {
    RunGrows(srv, steps[..m], n);
    assert steps[..m][..n] == steps[..n];
  }

  lemma {:induction false} RowsGrow(srv: Server, steps: seq<Step>, n: nat, m: nat)
    requires n <= |steps| && m <= |steps|
    ensures n <= m ==> |Run(srv, INITIAL, steps[..n]).auditRows| <= |Run(srv, INITIAL, steps[..m]).auditRows|
  {
    if n <= m {
      RunGrows(srv, steps[..m], n);
      assert steps[..m][..n] == steps[..n];
    }
  }

  /** Rows are written in their order. */
  lemma {:induction false} WrittenInOrder(srv: Server, steps: seq<Step>, k: nat, n: nat, k': nat, n': nat)
    requires WrittenAt(srv, steps, k, n) && WrittenAt(srv, steps, k', n') && k' < k
    ensures n' < n
  {
    RowsGrow(srv, steps, n, n');
  }

  // ----- exactly when the chain holds

  /** Row `k` belongs to the tenant's ledger. */
  predicate Counts(rows: seq<Row<AuditData>>, status: map<nat, TxStatus>, tenant: string, k: int) {
    0 <= k < |rows| && rows[k].tenant == tenant && StatusOf(status, rows[k].xid) == Committed
  }

  /** Each row of the ledger was written when every earlier row of the ledger had been committed. */
  ghost predicate InTurn(srv: Server, steps: seq<Step>, tenant: string) {
    var w := Run(srv, INITIAL, steps);
    forall k', k, n ::
      (k' < k && Counts(w.auditRows, w.status, tenant, k') && Counts(w.auditRows, w.status, tenant, k) && WrittenAt(srv, steps, k, n))
      ==> StatusOf(Run(srv, INITIAL, steps[..n]).status, w.auditRows[k'].xid) == Committed
  }

  /** Row `k` names the tip of the ledger rows before it. */
  predicate RowLinked(rows: seq<Row<AuditData>>, status: map<nat, TxStatus>, tenant: string, k: int) {
    0 <= k < |rows| && rows[k].data.prevHash == Tip(Select(rows[..k], status, -1, tenant))
  }

  lemma {:induction false} InFront(rows: seq<Row<AuditData>>, status: map<nat, TxStatus>, tenant: string, k: nat)
    requires k < |rows| - 1
    ensures Counts(rows[..|rows| - 1], status, tenant, k) <==> Counts(rows, status, tenant, k)
    ensures RowLinked(rows[..|rows| - 1], status, tenant, k) <==> RowLinked(rows, status, tenant, k)
  {
    assert rows[..|rows| - 1][..k] == rows[..k];
  }

  ghost predicate AllRowsLinked(rows: seq<Row<AuditData>>, status: map<nat, TxStatus>, tenant: string) {
    forall k :: Counts(rows, status, tenant, k) ==> RowLinked(rows, status, tenant, k)
  }

  lemma {:induction false} OneMoreRow(rows: seq<Row<AuditData>>, status: map<nat, TxStatus>, tenant: string)
    requires rows != []
    ensures AllRowsLinked(rows, status, tenant)
       <==> AllRowsLinked(rows[..|rows| - 1], status, tenant)
            && (Counts(rows, status, tenant, |rows| - 1) ==> RowLinked(rows, status, tenant, |rows| - 1))
  {
    var front, last := rows[..|rows| - 1], |rows| - 1;
    if AllRowsLinked(rows, status, tenant) {
      forall k | Counts(front, status, tenant, k) ensures RowLinked(front, status, tenant, k) {
        InFront(rows, status, tenant, k);
      }
    }
    if AllRowsLinked(front, status, tenant) {
      forall k | Counts(rows, status, tenant, k) && k < last ensures RowLinked(rows, status, tenant, k) {
        InFront(rows, status, tenant, k);
      }
    }
  }

  lemma {:induction false} LinkedByRows(rows: seq<Row<AuditData>>, status: map<nat, TxStatus>, tenant: string)
    ensures Linked(Select(rows, status, -1, tenant)) <==> AllRowsLinked(rows, status, tenant)
  {
    if rows != [] {
      LinkedByRows(rows[..|rows| - 1], status, tenant);
      OneMoreRow(rows, status, tenant);
      LinkedAppend(Select(rows[..|rows| - 1], status, -1, tenant), rows[|rows| - 1]);
    }
  }

  /** What the trigger of row `k` saw is the ledger before it, if each row came in turn. */
  lemma {:induction false} SawLedger(srv: Server, steps: seq<Step>, tenant: string, k: nat, n: nat)
    requires WrittenAt(srv, steps, k, n)
    requires var w := Run(srv, INITIAL, steps); Counts(w.auditRows, w.status, tenant, k)
    requires var w := Run(srv, INITIAL, steps);
      forall k' :: k' < k && Counts(w.auditRows, w.status, tenant, k')
        ==> StatusOf(Run(srv, INITIAL, steps[..n]).status, w.auditRows[k'].xid) == Committed
    ensures var w := Run(srv, INITIAL, steps);
      Ledger(Run(srv, INITIAL, steps[..n]), tenant) == Select(w.auditRows[..k], w.status, -1, tenant)
  {
    var w, v := Run(srv, INITIAL, steps), Run(srv, INITIAL, steps[..n]);
    RowAsWritten(srv, steps, k, n);
    RunGrows(srv, steps, n);
    forall r | r in v.auditRows && r.tenant == tenant
      ensures StatusOf(v.status, r.xid) == Committed <==> StatusOf(w.status, r.xid) == Committed
    {
      var k' :| 0 <= k' < k && w.auditRows[k'] == r;
      assert StatusOf(w.status, r.xid) == Committed ==> Counts(w.auditRows, w.status, tenant, k');
    }
    SelectSame(v.auditRows, v.status, -1, w.status, -1, tenant);
  }

  lemma {:induction false} InTurnIsLinked(srv: Server, steps: seq<Step>, tenant: string)
    requires InTurn(srv, steps, tenant)
    ensures Linked(Ledger(Run(srv, INITIAL, steps), tenant))
  {
    var w := Run(srv, INITIAL, steps);
    forall k | Counts(w.auditRows, w.status, tenant, k)
      ensures RowLinked(w.auditRows, w.status, tenant, k)
    {
      var n := WriteStep(srv, steps, k);
      RowAsWritten(srv, steps, k, n);
      SawLedger(srv, steps, tenant, k, n);
    }
    LinkedByRows(w.auditRows, w.status, tenant);
  }

  /** No block hash of the ledger repeats, and none is the zero hash. */
  predicate HashesApart(l: seq<Row<AuditData>>) {
    && (forall i :: 0 <= i < |l| ==> l[i].data.blockHash != Genesis())
    && (forall i, j :: 0 <= i < j < |l| ==> l[i].data.blockHash != l[j].data.blockHash)
  }

  /** The last row of the ledger before row `k`. */
  lemma {:induction false} LastBefore(rows: seq<Row<AuditData>>, status: map<nat, TxStatus>, tenant: string, k: nat) returns (p: nat)
    requires k <= |rows| && Select(rows[..k], status, -1, tenant) != []
    ensures p < k && Counts(rows, status, tenant, p) && Tip(Select(rows[..k], status, -1, tenant)) == rows[p].data.blockHash
    ensures forall q :: p < q < k ==> !Counts(rows, status, tenant, q)
  {
    assert rows[..k][..k - 1] == rows[..k - 1];
    if Counts(rows, status, tenant, k - 1) {
      p := k - 1;
    } else {
      p := LastBefore(rows, status, tenant, k - 1);
    }
  }

  lemma {:induction false} FrontApart(rows: seq<Row<AuditData>>, status: map<nat, TxStatus>, tenant: string)
    requires rows != [] && HashesApart(Select(rows, status, -1, tenant))
    ensures HashesApart(Select(rows[..|rows| - 1], status, -1, tenant))
  {
    var l, l' := Select(rows[..|rows| - 1], status, -1, tenant), Select(rows, status, -1, tenant);
    assert forall i :: 0 <= i < |l| ==> l[i] == l'[i];
  }

  lemma {:induction false} LastDiffers(rows: seq<Row<AuditData>>, status: map<nat, TxStatus>, tenant: string, o: nat)
    requires o < |rows| - 1 && HashesApart(Select(rows, status, -1, tenant))
    requires Counts(rows, status, tenant, o) && Counts(rows, status, tenant, |rows| - 1)
    ensures rows[o].data.blockHash != rows[|rows| - 1].data.blockHash
  {
    var front := rows[..|rows| - 1];
    var l, l' := Select(front, status, -1, tenant), Select(rows, status, -1, tenant);
    SelectedRows(front, status, -1, tenant, front[o]);
    var i :| 0 <= i < |l| && l[i] == front[o];
    assert l'[i] == l[i] && l'[|l|] == rows[|rows| - 1];
  }

  lemma {:induction false} SameHashSameRow(rows: seq<Row<AuditData>>, status: map<nat, TxStatus>, tenant: string, p: nat, q: nat)
    requires HashesApart(Select(rows, status, -1, tenant)) && Counts(rows, status, tenant, p) && Counts(rows, status, tenant, q)
    requires rows[p].data.blockHash == rows[q].data.blockHash
    ensures p == q
    decreases |rows|
  {
    var last := |rows| - 1;
    if p < last && q < last {
      FrontApart(rows, status, tenant);
      SameHashSameRow(rows[..last], status, tenant, p, q);
    } else if p < last {
      LastDiffers(rows, status, tenant, p);
    } else if q < last {
      LastDiffers(rows, status, tenant, q);
    }
  }

  /** In a linked ledger with its hashes apart, the row before row `k` had been committed when row `k` was written. */
  lemma {:induction false} PredecessorSeen(srv: Server, steps: seq<Step>, tenant: string, k: nat, n: nat) returns (p: nat)
    requires WrittenAt(srv, steps, k, n)
    requires var w := Run(srv, INITIAL, steps);
      && Counts(w.auditRows, w.status, tenant, k) && Linked(Ledger(w, tenant)) && HashesApart(Ledger(w, tenant))
      && Select(w.auditRows[..k], w.status, -1, tenant) != []
    ensures var w := Run(srv, INITIAL, steps);
      && p < k && Counts(w.auditRows, w.status, tenant, p) && (forall q :: p < q < k ==> !Counts(w.auditRows, w.status, tenant, q))
      && StatusOf(Run(srv, INITIAL, steps[..n]).status, w.auditRows[p].xid) == Committed
  {
    var w, v := Run(srv, INITIAL, steps), Run(srv, INITIAL, steps[..n]);
    var rows := w.auditRows;
    LinkedByRows(rows, w.status, tenant);
    assert RowLinked(rows, w.status, tenant, k);
    RowAsWritten(srv, steps, k, n);
    RunGrows(srv, steps, n);
    p := LastBefore(rows, w.status, tenant, k);
    assert v.auditRows[..k] == v.auditRows;
    NotGenesis(rows, w.status, tenant, p);
    var q := LastBefore(v.auditRows, v.status, tenant, k);
    assert Counts(rows, w.status, tenant, q);
    SameHashSameRow(rows, w.status, tenant, p, q);
  }

  lemma {:induction false} NotGenesis(rows: seq<Row<AuditData>>, status: map<nat, TxStatus>, tenant: string, p: nat)
    requires HashesApart(Select(rows, status, -1, tenant)) && Counts(rows, status, tenant, p)
    ensures rows[p].data.blockHash != Genesis()
  {
    SelectedRows(rows, status, -1, tenant, rows[p]);
  }

  /** And so had all rows before that one. */
  lemma {:induction false} AllSeen(srv: Server, steps: seq<Step>, tenant: string, k: nat, n: nat, k': nat)
    requires WrittenAt(srv, steps, k, n) && k' < k
    requires var w := Run(srv, INITIAL, steps);
      && Counts(w.auditRows, w.status, tenant, k) && Counts(w.auditRows, w.status, tenant, k')
      && Linked(Ledger(w, tenant)) && HashesApart(Ledger(w, tenant))
    ensures StatusOf(Run(srv, INITIAL, steps[..n]).status, Run(srv, INITIAL, steps).auditRows[k'].xid) == Committed
    decreases k
  {
    var w := Run(srv, INITIAL, steps);
    SelectedRows(w.auditRows[..k], w.status, -1, tenant, w.auditRows[k']);
    assert w.auditRows[..k][k'] == w.auditRows[k'];
    var p := PredecessorSeen(srv, steps, tenant, k, n);
    if k' != p {
      var m := WriteStep(srv, steps, p);
      AllSeen(srv, steps, tenant, p, m, k');
      WrittenInOrder(srv, steps, k, n, p, m);
      CommitsStay(srv, steps, m, n, w.auditRows[k'].xid);
    }
  }

  /**
   * Exactly when the chain of a tenant holds, over every run: if each row of its ledger was written when
   * all earlier ones had been committed; and, unless block hashes repeat or hit the zero hash, only then.
   */
  lemma {:induction false} LinkedIffInTurn(srv: Server, steps: seq<Step>, tenant: string)
    ensures InTurn(srv, steps, tenant) ==> Linked(Ledger(Run(srv, INITIAL, steps), tenant))
    ensures HashesApart(Ledger(Run(srv, INITIAL, steps), tenant)) ==>
      (Linked(Ledger(Run(srv, INITIAL, steps), tenant)) <==> InTurn(srv, steps, tenant))
  {
    var w := Run(srv, INITIAL, steps);
    if InTurn(srv, steps, tenant) {
      InTurnIsLinked(srv, steps, tenant);
    }
    if HashesApart(Ledger(w, tenant)) && Linked(Ledger(w, tenant)) {
      forall k', k, n | k' < k && Counts(w.auditRows, w.status, tenant, k') && Counts(w.auditRows, w.status, tenant, k)
          && WrittenAt(srv, steps, k, n)
        ensures StatusOf(Run(srv, INITIAL, steps[..n]).status, w.auditRows[k'].xid) == Committed
      {
        AllSeen(srv, steps, tenant, k, n, k');
      }
    }
  }

  /**
   * In every run in which the rows of the tenant's ledger came in turn, they are in id order, start at
   * the zero hash, link to each other and recompute.
   */
  lemma {:induction false} LedgerIsChained(srv: Server, steps: seq<Step>, tenant: string)
    requires InTurn(srv, steps, tenant)
    ensures var l := Ledger(Run(srv, INITIAL, steps), tenant);
      Increasing(l) && Linked(l) && Recomputes(srv, l) && forall i :: 0 <= i < |l| ==> l[i].tenant == tenant
  {
    InTurnIsLinked(srv, steps, tenant);
    InvRun(srv, steps);
    var w := Run(srv, INITIAL, steps);
    SelectIncreasing(w.auditRows, w.status, -1, tenant);
    forall i | 0 <= i < |Ledger(w, tenant)|
      ensures Ledger(w, tenant)[i].tenant == tenant
      ensures AuditRowOk(srv, w.requests, Ledger(w, tenant)[i])
    {
      SelectedRows(w.auditRows, w.status, -1, tenant, Ledger(w, tenant)[i]);
    }
  }

  lemma {:induction false} SelectPrefix(rows: seq<Row<AuditData>>, m: nat, status: map<nat, TxStatus>, status': map<nat, TxStatus>, tenant: string)
    requires m <= |rows|
    requires forall x: nat :: StatusOf(status, x) == Committed ==> StatusOf(status', x) == Committed
    requires forall k', k ::
      (k' < k < m && Counts(rows, status', tenant, k') && Counts(rows, status, tenant, k)) ==> Counts(rows, status, tenant, k')
    ensures Select(rows[..m], status, -1, tenant) <= Select(rows, status', -1, tenant)
  {
    if rows != [] {
      var front := rows[..|rows| - 1];
      assert forall k :: 0 <= k < |front| ==>
        (Counts(front, status, tenant, k) <==> Counts(rows, status, tenant, k))
        && (Counts(front, status', tenant, k) <==> Counts(rows, status', tenant, k));
      if m < |rows| {
        assert front[..m] == rows[..m];
        SelectPrefix(front, m, status, status', tenant);
      } else {
        assert rows[..m] == rows && m == |rows|;
        assert front[..m - 1] == front;
        SelectPrefix(front, m - 1, status, status', tenant);
        if Counts(rows, status, tenant, m - 1) {
          forall r | r in front && r.tenant == tenant ensures StatusOf(status, r.xid) == Committed <==> StatusOf(status', r.xid) == Committed {
            var k' :| 0 <= k' < |front| && front[k'] == r;
            assert Counts(rows, status', tenant, k') ==> Counts(rows, status, tenant, k');
          }
          SelectSame(front, status, -1, status', -1, tenant);
        }
      }
    }
  }

  /** Such a ledger has grown at its end only. */
  lemma {:induction false} LedgerGrowsAtEnd(srv: Server, steps: seq<Step>, n: nat, tenant: string)
    requires n <= |steps| && InTurn(srv, steps, tenant)
    ensures Ledger(Run(srv, INITIAL, steps[..n]), tenant) <= Ledger(Run(srv, INITIAL, steps), tenant)
  {
    var v, w := Run(srv, INITIAL, steps[..n]), Run(srv, INITIAL, steps);
    RunGrows(srv, steps, n);
    var rows, m := w.auditRows, |v.auditRows|;
    forall k', k | k' < k < m && Counts(rows, w.status, tenant, k') && Counts(rows, v.status, tenant, k)
      ensures Counts(rows, v.status, tenant, k')
    {
      var i := WriteStep(srv, steps[..n], k);
      assert steps[..n][..i] == steps[..i] && steps[..n][..i + 1] == steps[..i + 1];
      assert WrittenAt(srv, steps, k, i) && Counts(rows, w.status, tenant, k);
      CommitsStay(srv, steps, i, n, rows[k'].xid);
    }
    SelectPrefix(rows, m, v.status, w.status, tenant);
    assert rows[..m] == v.auditRows;
  }

  // ----- runs without overlaps

  /** A transaction that has ended in some way ends in no other. */
  lemma {:induction false} EndedStays(srv: Server, w: World, s: Step, xid: nat)
    requires PoolInv(srv, w) && xid in w.status && w.status[xid] == Aborted
    ensures xid in Next(srv, w, s).status && Next(srv, w, s).status[xid] == Aborted
  {
    if Enabled(w, s) && s.Exec? {
      assert ConnOk(srv, w, w.conns[s.c]);
      ExecConnOk(srv, w, s.c, s.rid, s.statement);
    }
  }

  lemma {:induction false} AbortsStay(srv: Server, steps: seq<Step>, n: nat, xid: nat)
    requires n <= |steps| && xid in Run(srv, INITIAL, steps[..n]).status && Run(srv, INITIAL, steps[..n]).status[xid] == Aborted
    ensures StatusOf(Run(srv, INITIAL, steps).status, xid) == Aborted && xid in Run(srv, INITIAL, steps).status
  {
    if n == |steps| {
      assert steps[..n] == steps;
    } else {
      var before := steps[..|steps| - 1];
      assert before[..n] == steps[..n];
      AbortsStay(srv, before, n, xid);
      PoolInvRun(srv, before);
      EndedStays(srv, Run(srv, INITIAL, before), steps[|steps| - 1], xid);
    }
  }

  lemma {:induction false} SerialAt(srv: Server, steps: seq<Step>, tenant: string, n: nat)
    requires Serial(srv, steps, tenant) && n < |steps|
    ensures var w := Run(srv, INITIAL, steps[..n]); AuditsFor(srv, w, steps[n], tenant) ==> NonePending(w.auditRows, w.status, tenant)
  {
    if n < |steps| - 1 {
      var before := steps[..|steps| - 1];
      SerialAt(srv, before, tenant, n);
      assert before[..n] == steps[..n];
    }
  }

  /** Where the tenant's audit transactions do not overlap, its rows come in turn. */
  lemma {:induction false} SerialIsInTurn(srv: Server, steps: seq<Step>, tenant: string)
    requires Serial(srv, steps, tenant)
    ensures InTurn(srv, steps, tenant)
  {
    var w := Run(srv, INITIAL, steps);
    forall k', k, n | k' < k && Counts(w.auditRows, w.status, tenant, k') && Counts(w.auditRows, w.status, tenant, k)
        && WrittenAt(srv, steps, k, n)
      ensures StatusOf(Run(srv, INITIAL, steps[..n]).status, w.auditRows[k'].xid) == Committed
    {
      var v, r := Run(srv, INITIAL, steps[..n]), w.auditRows[k'];
      RowAsWritten(srv, steps, k, n);
      assert v.auditRows[k'] == r;
      SerialAt(srv, steps, tenant, n);
      InvRun(srv, steps[..n]);
      assert AuditRowOk(srv, v.requests, r);
      if StatusOf(v.status, r.xid) == Aborted {
        AbortsStay(srv, steps, n, r.xid);
      }
    }
  }
}
