/** The dashboard's verify-chain route: its loop, what its verdict means and what it leaves unchecked. */
module ChainVerifier {
  import opened Common
  import opened Database
  import opened LedgerInvariants
  import opened HashChain
  import opened NonInterference

  /** The route's two messages, each with the value it prints. */
  datatype ChainError = NoError | GenesisModified(prevHash: string) | ChainBrokenAt(id: nat)

  datatype StepReport = StepReport(
    blockId: nat, action: string, resource: string, prevHash: string, blockHash: string, valid: bool, error: ChainError)

  // ----- String.prototype.trim

  predicate IsSpace(c: char) {
    var n := c as int;
    || 9 <= n <= 13 || n == 0x20 || n == 0xA0 || n == 0x1680 || 0x2000 <= n <= 0x200A
    || n == 0x2028 || n == 0x2029 || n == 0x202F || n == 0x205F || n == 0x3000 || n == 0xFEFF
  }

  function TrimStart(s: string): string {
    if s != "" && IsSpace(s[0]) then TrimStart(s[1..]) else s
  }

  function TrimEnd(s: string): string {
    if s != "" && IsSpace(s[|s| - 1]) then TrimEnd(s[..|s| - 1]) else s
  }

  function Trim(s: string): string {
    TrimEnd(TrimStart(s))
  }

  predicate Unpadded(s: string) {
    s == "" || (!IsSpace(s[0]) && !IsSpace(s[|s| - 1]))
  }

  // ----- the loop

  /** What the route asks of row `i`: the first is compared as it is, the others trimmed. */
  predicate StepHolds(rows: seq<Row<AuditData>>, i: nat)
    requires i < |rows|
  {
    if i == 0 then rows[0].data.prevHash == Genesis()
    else Trim(rows[i].data.prevHash) == Trim(rows[i - 1].data.blockHash)
  }

  /** The report of a row repeats it, and says whether and how its check fails. */
  predicate Reports(step: StepReport, rows: seq<Row<AuditData>>, i: nat)
    requires i < |rows|
  {
    var current := rows[i].data;
    && step.blockId == current.id && step.action == current.action && step.resource == current.resource
    && step.prevHash == current.prevHash && step.blockHash == current.blockHash
    && step.valid == StepHolds(rows, i)
    && step.error == if StepHolds(rows, i) then NoError else if i == 0 then GenesisModified(current.prevHash) else ChainBrokenAt(current.id)
  }

  /** The verdict as a property of the rows. */
  predicate Verdict(rows: seq<Row<AuditData>>) {
    forall i :: 0 <= i < |rows| ==> StepHolds(rows, i)
  }

  method VerifyChain(rows: seq<Row<AuditData>>) returns (isValid: bool, steps: seq<StepReport>)
    ensures isValid <==> Verdict(rows)
    ensures |steps| == |rows|
    ensures forall i :: 0 <= i < |rows| ==> Reports(steps[i], rows, i)
  {
    steps := [];
    isValid := true;
    for i := 0 to |rows|
      invariant isValid <==> forall k :: 0 <= k < i ==> StepHolds(rows, k)
      invariant |steps| == i
      invariant forall k :: 0 <= k < i ==> Reports(steps[k], rows, k)
    {
      var current := rows[i].data;
      var stepValid := true;
      var error := NoError;
      if i == 0 {
        var expectedStartHash := Genesis();
        if current.prevHash != expectedStartHash {
          stepValid := false;
          error := GenesisModified(current.prevHash);
        }
      } else {
        var previous := rows[i - 1].data;
        if Trim(current.prevHash) != Trim(previous.blockHash) {
          stepValid := false;
          error := ChainBrokenAt(current.id);
        }
      }
      if !stepValid {
        isValid := false;
      }
      assert stepValid == StepHolds(rows, i);
      steps := steps + [StepReport(current.id, current.action, current.resource, current.prevHash, current.blockHash, stepValid, error)];
    }
  }

  // ----- what the verdict means

  lemma TrimUnpadded(s: string)
    requires Unpadded(s)
    ensures Trim(s) == s
  {
  }

  /** Hashes as the columns hold them: 64 hex digits have no white space at either end. */
  predicate HashesUnpadded(rows: seq<Row<AuditData>>) {
    forall i :: 0 <= i < |rows| ==> Unpadded(rows[i].data.prevHash) && Unpadded(rows[i].data.blockHash)
  }

  /** A linked ledger always passes, and of unpadded hashes nothing else does. */
  lemma {:induction false} VerdictMeansLinked(rows: seq<Row<AuditData>>)
    ensures Linked(rows) ==> Verdict(rows)
    ensures HashesUnpadded(rows) ==> (Verdict(rows) <==> Linked(rows))
  {
    forall i | 0 <= i < |rows|
      ensures rows[i].data.prevHash == Before(rows, i) ==> StepHolds(rows, i)
      ensures HashesUnpadded(rows) && StepHolds(rows, i) ==> rows[i].data.prevHash == Before(rows, i)
    {
      if HashesUnpadded(rows) && i > 0 {
        TrimUnpadded(rows[i].data.prevHash);
        TrimUnpadded(rows[i - 1].data.blockHash);
      }
    }
    if HashesUnpadded(rows) && Verdict(rows) {
      forall i | 0 <= i < |rows| ensures rows[i].data.prevHash == Before(rows, i) {
        assert StepHolds(rows, i);
      }
    }
  }

  /** Every ledger whose rows came in turn passes. */
  lemma {:induction false} LedgerPasses(srv: Server, steps: seq<Step>, tenant: string)
    requires InTurn(srv, steps, tenant)
    ensures Verdict(Ledger(Run(srv, INITIAL, steps), tenant))
  {
    LedgerIsChained(srv, steps, tenant);
    VerdictMeansLinked(Ledger(Run(srv, INITIAL, steps), tenant));
  }

  /**
   * The route compares stored hashes with each other and recomputes none: whatever is written
   * over the other fields, the verdict is the same.
   */
  lemma {:induction false} VerdictIgnoresPayload(rows: seq<Row<AuditData>>, rows': seq<Row<AuditData>>)
    requires |rows| == |rows'|
    requires forall i :: 0 <= i < |rows| ==>
      rows'[i].data.prevHash == rows[i].data.prevHash && rows'[i].data.blockHash == rows[i].data.blockHash
    ensures Verdict(rows) <==> Verdict(rows')
  {
    forall i | 0 <= i < |rows| ensures StepHolds(rows, i) <==> StepHolds(rows', i) {
    }
  }

  // ----- the rows of all tenants together

  predicate OneTenant(rows: seq<Row<AuditData>>) {
    forall i :: 0 <= i < |rows| ==> rows[i].tenant == rows[0].tenant
  }

  lemma {:induction false} OnlyTenant(rows: seq<Row<AuditData>>, tenant: string)
    requires forall i :: 0 <= i < |rows| ==> rows[i].tenant == tenant
    ensures OfTenant(rows, tenant) == rows
  {
    if rows != [] {
      OnlyTenant(rows[..|rows| - 1], tenant);
    }
  }

  lemma {:induction false} NoneOfTenant(rows: seq<Row<AuditData>>, tenant: string)
    requires forall i :: 0 <= i < |rows| ==> rows[i].tenant != tenant
    ensures OfTenant(rows, tenant) == []
  {
    if rows != [] {
      NoneOfTenant(rows[..|rows| - 1], tenant);
    }
  }

  /** The first row of a tenant in the table is the first of its ledger. */
  lemma {:induction false} FirstOfTenant(rows: seq<Row<AuditData>>, tenant: string, i: nat)
    requires i < |rows| && rows[i].tenant == tenant && forall k :: 0 <= k < i ==> rows[k].tenant != tenant
    ensures OfTenant(rows, tenant) != [] && OfTenant(rows, tenant)[0] == rows[i]
  {
    var front := rows[..|rows| - 1];
    if i == |front| {
      NoneOfTenant(front, tenant);
    } else {
      FirstOfTenant(front, tenant, i);
    }
  }

  lemma {:induction false} FirstChange(rows: seq<Row<AuditData>>) returns (i: nat)
    requires !OneTenant(rows)
    ensures 0 < i < |rows| && rows[i].tenant != rows[0].tenant && forall k :: 0 <= k < i ==> rows[k].tenant == rows[0].tenant
  {
    i := 0;
    while rows[i].tenant == rows[0].tenant
      invariant i < |rows| && forall k :: 0 <= k < i ==> rows[k].tenant == rows[0].tenant
      decreases |rows| - i
    {
      if i == |rows| - 1 {
        assert OneTenant(rows);
      }
      i := i + 1;
    }
  }

  /**
   * The chains are per tenant, but the route reads the rows of all tenants: with every tenant's own
   * chain in order and no row hashing to the zero hash, the whole table passes if and only if
   * all its rows are of one tenant.
   */
  lemma {:induction false} MixedTableFails(rows: seq<Row<AuditData>>)
    requires forall tenant :: Linked(OfTenant(rows, tenant))
    requires HashesUnpadded(rows) && forall i :: 0 <= i < |rows| ==> rows[i].data.blockHash != Genesis()
    ensures Verdict(rows) <==> OneTenant(rows)
  {
    VerdictMeansLinked(rows);
    if OneTenant(rows) {
      if rows != [] {
        OnlyTenant(rows, rows[0].tenant);
      }
    } else {
      var i := FirstChange(rows);
      var own := OfTenant(rows, rows[i].tenant);
      FirstOfTenant(rows, rows[i].tenant, i);
      assert own[0].data.prevHash == Before(own, 0);
      assert rows[i].data.prevHash != Before(rows, i);
    }
  }

  /** All committed rows in the order of their ids, as the route reads them. */
  function Table(w: World): seq<Row<AuditData>> {
    CommittedRows(w.auditRows, w.status)
  }

  function CommittedRows(rows: seq<Row<AuditData>>, status: map<nat, TxStatus>): seq<Row<AuditData>> {
    if rows == [] then []
    else CommittedRows(rows[..|rows| - 1], status)
         + if StatusOf(status, rows[|rows| - 1].xid) == Committed then [rows[|rows| - 1]] else []
  }

  lemma {:induction false} TableOfTenant(rows: seq<Row<AuditData>>, status: map<nat, TxStatus>, tenant: string)
    ensures OfTenant(CommittedRows(rows, status), tenant) == Select(rows, status, -1, tenant)
  {
    if rows != [] {
      var front, r := rows[..|rows| - 1], rows[|rows| - 1];
      TableOfTenant(front, status, tenant);
      if StatusOf(status, r.xid) == Committed {
        OfTenantAppend(CommittedRows(front, status), r, tenant);
      } else {
        assert CommittedRows(rows, status) == CommittedRows(front, status);
      }
    }
  }

  /** So over any run in which each tenant's rows came in turn the route reports a broken chain as soon as two tenants have rows. */
  lemma {:induction false} RouteOnWholeTable(srv: Server, steps: seq<Step>)
    requires forall tenant :: InTurn(srv, steps, tenant)
    requires var t := Table(Run(srv, INITIAL, steps));
      HashesUnpadded(t) && forall i :: 0 <= i < |t| ==> t[i].data.blockHash != Genesis()
    ensures var t := Table(Run(srv, INITIAL, steps)); Verdict(t) <==> OneTenant(t)
  {
    var w := Run(srv, INITIAL, steps);
    forall tenant ensures Linked(OfTenant(Table(w), tenant)) {
      TableOfTenant(w.auditRows, w.status, tenant);
      LedgerIsChained(srv, steps, tenant);
    }
    MixedTableFails(Table(w));
  }
}
