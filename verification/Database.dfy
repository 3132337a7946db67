/**
 * The audit database and the pool of connections to it, as a step system: tables with row-level
 * security, the hash-chain trigger, transactions that see committed rows and their own, and the
 * statements that each request of the gateway sends in turn.
 */
module Database {
  import opened Common

  // ----- rows

  datatype Details = NoDetails | TransferDetails(amount: real, description: string, txId: string)

  datatype TxData = TxData(id: string, cents: int, description: string)

  datatype AuditData = AuditData(
    id: nat, timestamp: string, actor: string, action: string, resource: string, details: Option<Details>,
    prevHash: string, blockHash: string)

  /** A stored row with the transaction that wrote it and the tenant column that the policies read. */
  datatype Row<+D> = Row(xid: nat, tenant: string, data: D)

  datatype TxStatus = InProgress | Committed | Aborted

  // ----- sessions

  datatype Setting = Unset | Text(text: string)

  /** app.tenant_id and app.audit_secret */
  datatype Settings = Settings(tenant: Setting, secret: Setting)

  datatype Request =
    | Transfer(tenant: string, amount: real, description: string, sub: string)
    | Balance(tenant: string, sub: string)
    | Logs(tenant: string)

  /** How far the statements of a request have come. */
  datatype Pc = Begun | TenantSet | SecretSet | Worked | Audited | Failed

  datatype Outcome = Nothing | Inserted(txId: string) | Sum(cents: int) | Rows(rows: seq<Row<AuditData>>)

  datatype Tx = Tx(rid: nat, now: string, local: Settings, pc: Pc, outcome: Outcome)

  datatype Conn = Conn(session: Settings, tx: Option<Tx>)

  /**
   * What the model takes from outside: how a text is cast to a UUID (none if it cannot be), HMAC
   * in hex, the text of a JSONB value, and the secret the gateway is configured with.
   */
  datatype Server = Server(
    castUuid: string -> Option<string>, hmacHex: (string, string) -> string, detailsText: Details -> string, auditSecret: string)

  /** Tables keep every row ever written, in the order of writing; `status` says which count. */
  datatype World = World(
    conns: map<nat, Conn>, requests: map<nat, Request>, status: map<nat, TxStatus>,
    txRows: seq<Row<TxData>>, auditRows: seq<Row<AuditData>>, nextId: nat, replies: map<nat, Outcome>)

  const INITIAL := World(map[], map[], map[], [], [], 1, map[])

  datatype Statement =
    | SetTenant
    | SetSecret
    | Work(uuid: string)
    | Audit
    | Commit(acknowledged: bool)
    | Lost
    | Rollback
    | ModifyAudit

  /** `Begin` starts request `rid` on an idle connection; `Exec` sends its next statement. */
  datatype Step =
    | Open(c: nat)
    | Close(c: nat)
    | Reset(c: nat)
    | Begin(c: nat, rid: nat, request: Request, now: string)
    | Exec(c: nat, rid: nat, statement: Statement)

  // ----- row-level security

  datatype Context = NoTenant | BadTenant | Only(tenant: string)

  /** NULLIF(current_setting('app.tenant_id', true), '')::uuid */
  function RlsContext(srv: Server, s: Settings): Context {
    if s.tenant.Unset? || s.tenant.text == "" then NoTenant
    else if srv.castUuid(s.tenant.text).None? then BadTenant
    else Only(srv.castUuid(s.tenant.text).value)
  }

  function StatusOf(status: map<nat, TxStatus>, xid: nat): TxStatus {
    if xid in status then status[xid] else Aborted
  }

  /** The rows of `tenant` that transaction `self` sees, or of no transaction for -1: committed ones and its own. */
  function Select<D>(rows: seq<Row<D>>, status: map<nat, TxStatus>, self: int, tenant: string): seq<Row<D>> {
    if rows == [] then []
    else
      var rest, r := Select(rows[..|rows| - 1], status, self, tenant), rows[|rows| - 1];
      if r.tenant == tenant && (StatusOf(status, r.xid) == Committed || r.xid == self) then rest + [r] else rest
  }

  /** What a query returns under a context that is not bad. */
  function Query<D>(rows: seq<Row<D>>, status: map<nat, TxStatus>, self: int, context: Context): seq<Row<D>> {
    if context.Only? then Select(rows, status, self, context.tenant) else []
  }

  // ----- the trigger

  /** The prev_hash of a first row: 64 characters '0'. */
  function Genesis(): (g: string)
    ensures |g| == 64 && forall i :: 0 <= i < 64 ==> g[i] == '0'
  {
    seq(64, _ => '0')
  }

  /** `ORDER BY id DESC LIMIT 1` */
  function Newest(rows: seq<Row<AuditData>>): (r: Row<AuditData>)
    requires rows != []
    ensures r in rows && forall x :: x in rows ==> x.data.id <= r.data.id
  {
    var last := rows[|rows| - 1];
    if |rows| == 1 then last
    else
      var best := Newest(rows[..|rows| - 1]);
      if last.data.id > best.data.id then last else best
  }

  function LastBlockHash(visible: seq<Row<AuditData>>): string {
    if visible == [] then Genesis() else Newest(visible).data.blockHash
  }

  function DetailsText(srv: Server, d: Option<Details>): string {
    if d.None? then "{}" else srv.detailsText(d.value)
  }

  function ConcatText(srv: Server, r: Row<AuditData>): string {
    r.data.timestamp + "|" + r.data.actor + "|" + r.tenant + "|" + r.data.action + "|" + r.data.resource + "|"
    + DetailsText(srv, r.data.details) + "|" + r.data.prevHash
  }

  function BlockHash(srv: Server, secret: string, r: Row<AuditData>): string {
    srv.hmacHex(ConcatText(srv, r), secret)
  }

  /** hash_audit_record: none when the secret is missing. */
  function HashAuditRecord(srv: Server, s: Settings, visible: seq<Row<AuditData>>, new_: Row<AuditData>): Option<Row<AuditData>> {
    if s.secret.Unset? || s.secret.text == "" then None
    else
      var linked := new_.(data := new_.data.(prevHash := LastBlockHash(visible)));
      Some(linked.(data := linked.data.(blockHash := BlockHash(srv, s.secret.text, linked))))
  }

  // ----- amounts

  /** Rounding to the nearest integer, halves away from zero, as NUMERIC does. */
  function Round(x: real): int {
    if x >= 0.0 then (x + 0.5).Floor else -((-x + 0.5).Floor)
  }

  /** DECIMAL(15, 2) as a number of cents; none when it does not fit. */
  function Cents(amount: real): Option<int> {
    var c := Round(amount * 100.0);
    if -1_000_000_000_000_000 < c < 1_000_000_000_000_000 then Some(c) else None
  }

  function SumCents(rows: seq<Row<TxData>>): int {
    if rows == [] then 0 else SumCents(rows[..|rows| - 1]) + rows[|rows| - 1].data.cents
  }

  // ----- what the gateway writes

  function UserUuid(sub: string): string {
    if sub == "client-alice" then "aaaaaaaa-aaaa-aaaa-aaaa-aaaaaaaaaaaa"
    else if sub == "client-bob" then "bbbbbbbb-bbbb-bbbb-bbbb-bbbbbbbbbbbb"
    else if sub == "client-evil" then "eeeeeeee-eeee-eeee-eeee-eeeeeeeeeeee"
    else "00000000-0000-0000-0000-000000000000"
  }

  /** The audit row of a request before the trigger has filled in the hashes. */
  function Unhashed(rid: nat, request: Request, tenant: string, id: nat, now: string, outcome: Outcome): Row<AuditData>
    requires !request.Logs?
  {
    Row(rid, tenant,
        if request.Transfer? then
          AuditData(id, now, UserUuid(request.sub), "CREATE_TRANSACTION", "transactions",
            Some(TransferDetails(request.amount, request.description, if outcome.Inserted? then outcome.txId else "")), "", "")
        else
          AuditData(id, now, UserUuid(request.sub), "GET_BALANCE", "transactions", Some(NoDetails), "", ""))
  }

  // ----- steps

  predicate Idle(w: World, c: nat) {
    c in w.conns && w.conns[c].tx.None?
  }

  predicate Runs(w: World, c: nat, rid: nat) {
    c in w.conns && w.conns[c].tx.Some? && w.conns[c].tx.value.rid == rid && rid in w.requests
  }

  function SetTx(w: World, c: nat, tx: Tx): World
    requires c in w.conns
  {
    w.(conns := w.conns[c := w.conns[c].(tx := Some(tx))])
  }

  /** A setting made with set_config(..., true) is gone after the transaction, but is then empty rather than unset. */
  function AfterTx(session: Settings, local: Settings): Settings {
    Settings(if session.tenant.Unset? && local.tenant.Text? then Text("") else session.tenant,
             if session.secret.Unset? && local.secret.Text? then Text("") else session.secret)
  }

  function EndTx(w: World, c: nat, status: TxStatus): World
    requires c in w.conns && w.conns[c].tx.Some?
  {
    var conn := w.conns[c];
    w.(conns := w.conns[c := Conn(AfterTx(conn.session, conn.tx.value.local), None)],
       status := w.status[conn.tx.value.rid := status])
  }

  function Fail(w: World, c: nat): World
    requires c in w.conns && w.conns[c].tx.Some?
  {
    SetTx(w, c, w.conns[c].tx.value.(pc := Failed))
  }

  /** The primary key counts the committed rows of every tenant; the ids of aborted transactions are free again. */
  predicate IdTaken(rows: seq<Row<TxData>>, status: map<nat, TxStatus>, id: string) {
    exists i :: 0 <= i < |rows| && rows[i].data.id == id && StatusOf(status, rows[i].xid) == Committed
  }

  /** An open transaction holds the id: an insert of it waits for that transaction to end. */
  predicate IdAwaited(rows: seq<Row<TxData>>, status: map<nat, TxStatus>, id: string) {
    exists i :: 0 <= i < |rows| && rows[i].data.id == id && StatusOf(status, rows[i].xid) == InProgress
  }

  /** INSERT INTO transactions, or the SELECT of a read. */
  function DoWork(srv: Server, w: World, c: nat, rid: nat, uuid: string): World
    requires Runs(w, c, rid)
  {
    var tx, request := w.conns[c].tx.value, w.requests[rid];
    var context := RlsContext(srv, tx.local);
    match request
    case Transfer(tenant, amount, description, _) =>
      var cell, cents := srv.castUuid(tenant), Cents(amount);
      if cell.None? || cents.None? || context != Only(cell.value) || IdTaken(w.txRows, w.status, uuid) then Fail(w, c)
      else SetTx(w, c, tx.(pc := Worked, outcome := Inserted(uuid)))
             .(txRows := w.txRows + [Row(rid, cell.value, TxData(uuid, cents.value, description))])
    case Balance(_, _) =>
      if context.BadTenant? then Fail(w, c)
      else SetTx(w, c, tx.(pc := Worked, outcome := Sum(SumCents(Query(w.txRows, w.status, rid, context)))))
    case Logs(_) =>
      if context.BadTenant? then Fail(w, c)
      else SetTx(w, c, tx.(pc := Worked, outcome := Rows(Query(w.auditRows, w.status, rid, context))))
  }

  /** What an insert into audit_logs adds: the policy for reading binds the trigger, the one for writing the row. */
  function AuditInsert(srv: Server, w: World, rid: nat, tx: Tx): Option<Row<AuditData>>
    requires rid in w.requests && !w.requests[rid].Logs?
  {
    var request := w.requests[rid];
    var context, cell := RlsContext(srv, tx.local), srv.castUuid(request.tenant);
    if cell.None? || context != Only(cell.value) then None
    else HashAuditRecord(srv, tx.local, Query(w.auditRows, w.status, rid, context),
                         Unhashed(rid, request, cell.value, w.nextId, tx.now, tx.outcome))
  }

  /** INSERT INTO audit_logs; the sequence moves on even if the insert is refused. */
  function DoAudit(srv: Server, w: World, c: nat, rid: nat): World
    requires Runs(w, c, rid) && !w.requests[rid].Logs?
  {
    var tx := w.conns[c].tx.value;
    var row, drawn := AuditInsert(srv, w, rid, tx), w.(nextId := w.nextId + 1);
    if row.None? then Fail(drawn, c)
    else SetTx(drawn, c, tx.(pc := Audited)).(auditRows := w.auditRows + [row.value])
  }

  /** A request may commit after its audit row; reading the logs writes none. */
  predicate MayCommit(tx: Tx, request: Request) {
    if request.Logs? then tx.pc.Worked? else tx.pc.Audited?
  }

  /** The gateway's program order, and what the pool allows. */
  predicate Enabled(w: World, s: Step) {
    match s
    case Open(c) => c !in w.conns
    case Close(c) => Idle(w, c)
    case Reset(c) => Idle(w, c)
    case Begin(c, rid, _, _) => Idle(w, c) && rid !in w.requests
    case Exec(c, rid, statement) =>
      Runs(w, c, rid) &&
      var tx := w.conns[c].tx.value;
      match statement
      case SetTenant => tx.pc.Begun?
      case SetSecret => tx.pc.TenantSet?
      case Work(uuid) => tx.pc.SecretSet? && (w.requests[rid].Transfer? ==> !IdAwaited(w.txRows, w.status, uuid))
      case Audit => tx.pc.Worked? && !w.requests[rid].Logs?
      case Commit(_) => MayCommit(tx, w.requests[rid])
      case Lost => true
      case Rollback => tx.pc.Failed?
      case ModifyAudit => !tx.pc.Failed?
  }

  function DoStatement(srv: Server, w: World, c: nat, rid: nat, statement: Statement): World
    requires Enabled(w, Exec(c, rid, statement))
  {
    var tx, request := w.conns[c].tx.value, w.requests[rid];
    match statement
    case SetTenant => SetTx(w, c, tx.(local := tx.local.(tenant := Text(request.tenant)), pc := TenantSet))
    case SetSecret => SetTx(w, c, tx.(local := tx.local.(secret := Text(srv.auditSecret)), pc := SecretSet))
    case Work(uuid) => DoWork(srv, w, c, rid, uuid)
    case Audit => DoAudit(srv, w, c, rid)
    case Commit(acknowledged) =>
      var e := EndTx(w, c, Committed);
      if acknowledged then e.(replies := w.replies[rid := tx.outcome]) else e
    case Lost => Fail(w, c)
    case Rollback => EndTx(w, c, Aborted)
    case ModifyAudit => Fail(w, c)
  }

  /** set_config(..., false) outside a transaction. */
  const EMPTIED := Settings(Text(""), Text(""))

  /** One step; a step that is not possible changes nothing. */
  function Next(srv: Server, w: World, s: Step): World {
    if !Enabled(w, s) then w
    else match s
    case Open(c) => w.(conns := w.conns[c := Conn(Settings(Unset, Unset), None)])
    case Close(c) => w.(conns := w.conns - {c})
    case Reset(c) => w.(conns := w.conns[c := Conn(EMPTIED, None)])
    case Begin(c, rid, request, now) =>
      w.(conns := w.conns[c := w.conns[c].(tx := Some(Tx(rid, now, w.conns[c].session, Begun, Nothing)))],
         requests := w.requests[rid := request],
         status := w.status[rid := InProgress])
    case Exec(c, rid, statement) => DoStatement(srv, w, c, rid, statement)
  }

  function Run(srv: Server, w: World, steps: seq<Step>): World {
    if steps == [] then w else Next(srv, Run(srv, w, steps[..|steps| - 1]), steps[|steps| - 1])
  }

  /** Every step of the run is possible when it is taken. */
  predicate Valid(srv: Server, w: World, steps: seq<Step>) {
    steps == [] || (Valid(srv, w, steps[..|steps| - 1]) && Enabled(Run(srv, w, steps[..|steps| - 1]), steps[|steps| - 1]))
  }

  /** The ledger of a tenant as committed, and its balance. */
  function Ledger(w: World, tenant: string): seq<Row<AuditData>> {
    Select(w.auditRows, w.status, -1, tenant)
  }

  function BalanceOf(w: World, tenant: string): int {
    SumCents(Select(w.txRows, w.status, -1, tenant))
  }
}
