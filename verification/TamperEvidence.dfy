/**
 * Tamper evidence: the last block hash of a ledger determines every hashed field of every row,
 * unless a collision of HMAC is at hand.
 */
module TamperEvidence {
  import opened Common
  import opened Database
  import opened LedgerInvariants
  import opened HashChain

  // ----- the text that is hashed

  /** No separator in the fields before the details; timestamps and UUIDs never have one. */
  predicate NoBars(r: Row<AuditData>) {
    '|' !in r.data.timestamp && '|' !in r.data.actor && '|' !in r.tenant && '|' !in r.data.action && '|' !in r.data.resource
  }

  /** Equal in everything the trigger hashes; absent details hash as "{}". */
  predicate SameHashed(srv: Server, r: Row<AuditData>, r': Row<AuditData>) {
    && r.data.timestamp == r'.data.timestamp && r.data.actor == r'.data.actor && r.tenant == r'.tenant
    && r.data.action == r'.data.action && r.data.resource == r'.data.resource
    && DetailsText(srv, r.data.details) == DetailsText(srv, r'.data.details)
    && r.data.prevHash == r'.data.prevHash
  }

  lemma {:induction false} CutAtBar(a: string, s: string, a': string, s': string)
    requires '|' !in a && '|' !in a' && a + "|" + s == a' + "|" + s'
    ensures a == a' && s == s'
  {
    var t, t' := a + "|" + s, a' + "|" + s';
    assert t[|a|] == '|' && t'[|a'|] == '|';
    assert forall i :: 0 <= i < |a| ==> t[i] == a[i];
    assert forall i :: 0 <= i < |a'| ==> t'[i] == a'[i];
    assert |a| == |a'|;
    assert a == t[..|a|] && a' == t'[..|a'|];
    assert s == t[|a| + 1..] && s' == t'[|a'| + 1..];
  }

  lemma {:induction false} CutTail(d: string, p: string, d': string, p': string)
    requires |p| == |p'| && d + "|" + p == d' + "|" + p'
    ensures d == d' && p == p'
  {
    var t, t' := d + "|" + p, d' + "|" + p';
    assert |d| == |d'|;
    assert d == t[..|d|] && d' == t'[..|d'|];
    assert p == t[|d| + 1..] && p' == t'[|d'| + 1..];
  }

  lemma {:induction false} ConcatNested(a: string, b: string, c: string, d: string, e: string, f: string, p: string)
    ensures a + "|" + b + "|" + c + "|" + d + "|" + e + "|" + f + "|" + p
         == a + "|" + (b + "|" + (c + "|" + (d + "|" + (e + "|" + (f + "|" + p)))))
  {
  }

  /** The joined text is injective: the details may hold bars, since what follows them has a fixed length. */
  lemma {:induction false} ConcatIsInjective(srv: Server, r: Row<AuditData>, r': Row<AuditData>)
    requires NoBars(r) && NoBars(r') && |r.data.prevHash| == |r'.data.prevHash| == 64
    ensures ConcatText(srv, r) == ConcatText(srv, r') <==> SameHashed(srv, r, r')
  {
    var a, b, c, d, e := r.data.timestamp, r.data.actor, r.tenant, r.data.action, r.data.resource;
    var a', b', c', d', e' := r'.data.timestamp, r'.data.actor, r'.tenant, r'.data.action, r'.data.resource;
    var f, p, f', p' := DetailsText(srv, r.data.details), r.data.prevHash, DetailsText(srv, r'.data.details), r'.data.prevHash;
    ConcatNested(a, b, c, d, e, f, p);
    ConcatNested(a', b', c', d', e', f', p');
    if ConcatText(srv, r) == ConcatText(srv, r') {
      CutAtBar(a, b + "|" + (c + "|" + (d + "|" + (e + "|" + (f + "|" + p)))), a', b' + "|" + (c' + "|" + (d' + "|" + (e' + "|" + (f' + "|" + p')))));
      CutAtBar(b, c + "|" + (d + "|" + (e + "|" + (f + "|" + p))), b', c' + "|" + (d' + "|" + (e' + "|" + (f' + "|" + p'))));
      CutAtBar(c, d + "|" + (e + "|" + (f + "|" + p)), c', d' + "|" + (e' + "|" + (f' + "|" + p')));
      CutAtBar(d, e + "|" + (f + "|" + p), d', e' + "|" + (f' + "|" + p'));
      CutAtBar(e, f + "|" + p, e', f' + "|" + p');
      CutTail(f, p, f', p');
    }
  }

  /** What stands before the first bar of a text, and what after it. */
  function CutFirst(text: string): (string, string) {
    var i := Index(text, "|");
    if i == -1 then (text, "") else (text[..i], text[i + 1..])
  }

  lemma {:induction false} CutFirstBar(a: string, s: string)
    requires '|' !in a
    ensures CutFirst(a + "|" + s) == (a, s)
  {
    var t := a + "|" + s;
    assert t[..|a|] == a && t[|a|..|a| + 1] == "|" && t[|a| + 1..] == s;
    IndexOfFirst(t, "|", |a|);
  }

  /** Cut at its bars the text gives back the fields, in their order, and ends in the hash of the row before. */
  lemma {:induction false} FieldsAreReadBack(srv: Server, r: Row<AuditData>)
    requires NoBars(r)
    ensures var (timestamp, t1) := CutFirst(ConcatText(srv, r));
      var (actor, t2) := CutFirst(t1);
      var (tenant, t3) := CutFirst(t2);
      var (action, t4) := CutFirst(t3);
      var (resource, t5) := CutFirst(t4);
      && timestamp == r.data.timestamp && actor == r.data.actor && tenant == r.tenant && action == r.data.action
      && resource == r.data.resource
      && t5 == (match r.data.details case None => "{}" case Some(d) => srv.detailsText(d)) + "|" + r.data.prevHash
  {
    var a, b, c, d, e := r.data.timestamp, r.data.actor, r.tenant, r.data.action, r.data.resource;
    var t5 := DetailsText(srv, r.data.details) + "|" + r.data.prevHash;
    ConcatNested(a, b, c, d, e, DetailsText(srv, r.data.details), r.data.prevHash);
    CutFirstBar(a, b + "|" + (c + "|" + (d + "|" + (e + "|" + t5))));
    CutFirstBar(b, c + "|" + (d + "|" + (e + "|" + t5)));
    CutFirstBar(c, d + "|" + (e + "|" + t5));
    CutFirstBar(d, e + "|" + t5);
    CutFirstBar(e, t5);
  }

  /** With a bar in the action or the resource the text is not injective: the boundary between the two can move. */
  lemma {:induction false} BarMovesTheBoundary(srv: Server, r: Row<AuditData>, x: string, y: string, z: string)
    ensures var left := r.(data := r.data.(action := x + "|" + y, resource := z));
      var right := r.(data := r.data.(action := x, resource := y + "|" + z));
      ConcatText(srv, left) == ConcatText(srv, right) && !SameHashed(srv, left, right)
  {
    assert (x + "|" + y) + "|" + z == x + "|" + (y + "|" + z);
    assert |x + "|" + y| > |x|;
    var h := r.data.timestamp + "|" + r.data.actor + "|" + r.tenant + "|";
    assert h + (x + "|" + y) + "|" + z == h + ((x + "|" + y) + "|" + z);
    assert h + x + "|" + (y + "|" + z) == h + (x + "|" + (y + "|" + z));
  }

  // ----- ledgers

  /** Two texts with one HMAC under the gateway's secret. */
  ghost predicate HmacCollision(srv: Server, a: string, b: string) {
    a != b && srv.hmacHex(a, srv.auditSecret) == srv.hmacHex(b, srv.auditSecret)
  }

  ghost predicate CollisionBetween(srv: Server, l: seq<Row<AuditData>>, l': seq<Row<AuditData>>) {
    exists i, j :: 0 <= i < |l| && 0 <= j < |l'| && HmacCollision(srv, ConcatText(srv, l[i]), ConcatText(srv, l'[j]))
  }

  /** A text that hashes to 64 zeros. */
  predicate HitsGenesis(l: seq<Row<AuditData>>) {
    exists i :: 0 <= i < |l| && l[i].data.blockHash == Genesis()
  }

  /** A ledger that an auditor accepts: linked, recomputed, its fields well separated and its hashes of 64 characters. */
  predicate Sound(srv: Server, l: seq<Row<AuditData>>) {
    Linked(l) && Recomputes(srv, l) && forall i :: 0 <= i < |l| ==> NoBars(l[i]) && |l[i].data.blockHash| == 64
  }

  ghost predicate Agree(srv: Server, l: seq<Row<AuditData>>, l': seq<Row<AuditData>>) {
    |l| == |l'| && forall i :: 0 <= i < |l| ==> SameHashed(srv, l[i], l'[i]) && l[i].data.blockHash == l'[i].data.blockHash
  }

  lemma {:induction false} SoundFront(srv: Server, l: seq<Row<AuditData>>)
    requires Sound(srv, l) && l != []
    ensures Sound(srv, l[..|l| - 1]) && l[|l| - 1].data.prevHash == Tip(l[..|l| - 1])
    ensures |l[|l| - 1].data.prevHash| == 64
  {
    var front := l[..|l| - 1];
    forall i: nat | i <= |front| ensures Before(front, i) == Before(l, i) {
    }
    forall i | 0 <= i < |front| ensures front[i].data.prevHash == Before(front, i) {
      assert front[i] == l[i];
    }
  }

  /**
   * Two sound ledgers with one tip agree in every hashed field of every row, or they exhibit a
   * collision of HMAC, or a row that hashes to the zero hash with which every ledger starts.
   */
  lemma {:induction false} TipDeterminesLedger(srv: Server, l: seq<Row<AuditData>>, l': seq<Row<AuditData>>)
    requires Sound(srv, l) && Sound(srv, l') && Tip(l) == Tip(l')
    ensures Agree(srv, l, l') || CollisionBetween(srv, l, l') || HitsGenesis(l) || HitsGenesis(l')
    decreases |l|
  {
    if l == [] || l' == [] {
      assert l != [] ==> l[|l| - 1].data.blockHash == Genesis();
      assert l' != [] ==> l'[|l'| - 1].data.blockHash == Genesis();
    } else {
      var front, r, front', r' := l[..|l| - 1], l[|l| - 1], l'[..|l'| - 1], l'[|l'| - 1];
      SoundFront(srv, l);
      SoundFront(srv, l');
      if ConcatText(srv, r) != ConcatText(srv, r') {
        assert HmacCollision(srv, ConcatText(srv, l[|l| - 1]), ConcatText(srv, l'[|l'| - 1]));
      } else {
        ConcatIsInjective(srv, r, r');
        TipDeterminesLedger(srv, front, front');
        LongerWitnesses(srv, l, l');
        AgreeLonger(srv, l, l');
      }
    }
  }

  lemma {:induction false} AgreeLonger(srv: Server, l: seq<Row<AuditData>>, l': seq<Row<AuditData>>)
    requires l != [] && l' != [] && SameHashed(srv, l[|l| - 1], l'[|l'| - 1])
    requires l[|l| - 1].data.blockHash == l'[|l'| - 1].data.blockHash
    ensures Agree(srv, l[..|l| - 1], l'[..|l'| - 1]) ==> Agree(srv, l, l')
  {
    var front, front' := l[..|l| - 1], l'[..|l'| - 1];
    forall i | Agree(srv, front, front') && 0 <= i < |front|
      ensures SameHashed(srv, l[i], l'[i]) && l[i].data.blockHash == l'[i].data.blockHash
    {
      assert SameHashed(srv, front[i], front'[i]);
    }
  }

  lemma {:induction false} LongerWitnesses(srv: Server, l: seq<Row<AuditData>>, l': seq<Row<AuditData>>)
    requires l != [] && l' != []
    ensures CollisionBetween(srv, l[..|l| - 1], l'[..|l'| - 1]) ==> CollisionBetween(srv, l, l')
    ensures HitsGenesis(l[..|l| - 1]) ==> HitsGenesis(l)
    ensures HitsGenesis(l'[..|l'| - 1]) ==> HitsGenesis(l')
  {
    var front, front' := l[..|l| - 1], l'[..|l'| - 1];
    if CollisionBetween(srv, front, front') {
      var i, j :| 0 <= i < |front| && 0 <= j < |front'| && HmacCollision(srv, ConcatText(srv, front[i]), ConcatText(srv, front'[j]));
      assert front[i] == l[i] && front'[j] == l'[j];
    }
    if HitsGenesis(front) {
      var i :| 0 <= i < |front| && front[i].data.blockHash == Genesis();
      assert l[i].data.blockHash == Genesis();
    }
    if HitsGenesis(front') {
      var i :| 0 <= i < |front'| && front'[i].data.blockHash == Genesis();
      assert l'[i].data.blockHash == Genesis();
    }
  }

  // ----- the ledgers that runs produce

  /** The texts of timestamps and UUIDs have no bars, and HMAC in hex has 64 characters. */
  ghost predicate PlainTexts(srv: Server, steps: seq<Step>) {
    && (forall s: string :: srv.castUuid(s).Some? ==> '|' !in srv.castUuid(s).value)
    && (forall t: string :: |srv.hmacHex(t, srv.auditSecret)| == 64)
    && (forall i :: 0 <= i < |steps| && steps[i].Begin? ==> '|' !in steps[i].now)
  }

  ghost predicate PlainTimes(w: World) {
    && (forall c :: c in w.conns && w.conns[c].tx.Some? ==> '|' !in w.conns[c].tx.value.now)
    && (forall r :: r in w.auditRows ==> '|' !in r.data.timestamp)
  }

  lemma {:induction false} PlainTimesStep(srv: Server, w: World, s: Step)
    requires Inv(srv, w) && PlainTimes(w) && (s.Begin? ==> '|' !in s.now)
    ensures PlainTimes(Next(srv, w, s))
  {
    if Enabled(w, s) && s.Exec? {
      assert ConnOk(srv, w, w.conns[s.c]);
      if s.statement.Audit? {
        var r := AuditAppends(srv, w, s.c, s.rid);
      } else if s.statement.Work? {
        WorkShape(srv, w, s.c, s.rid, s.statement.uuid);
      } else {
        ExecShape(srv, w, s.c, s.rid, s.statement);
      }
    }
  }

  lemma {:induction false} PlainTimesRun(srv: Server, steps: seq<Step>)
    requires forall i :: 0 <= i < |steps| && steps[i].Begin? ==> '|' !in steps[i].now
    ensures PlainTimes(Run(srv, INITIAL, steps))
  {
    if steps != [] {
      var before := steps[..|steps| - 1];
      PlainTimesRun(srv, before);
      InvRun(srv, before);
      PlainTimesStep(srv, Run(srv, INITIAL, before), steps[|steps| - 1]);
    }
  }

  lemma UserUuidsOfTwo(sub: string)
    requires sub == "client-alice" || sub == "client-bob"
    ensures '|' !in UserUuid(sub)
  {
  }

  lemma UserUuidsOfOthers(sub: string)
    requires sub != "client-alice" && sub != "client-bob"
    ensures '|' !in UserUuid(sub)
  {
  }

  lemma UserUuidPlain(sub: string)
    ensures '|' !in UserUuid(sub)
  {
    if sub == "client-alice" || sub == "client-bob" {
      UserUuidsOfTwo(sub);
    } else {
      UserUuidsOfOthers(sub);
    }
  }

  lemma ActionsPlain()
    ensures '|' !in "CREATE_TRANSACTION" && '|' !in "GET_BALANCE" && '|' !in "transactions"
  {
  }

  lemma {:induction false} RowIsPlain(srv: Server, requests: map<nat, Request>, r: Row<AuditData>)
    requires AuditRowOk(srv, requests, r) && '|' !in r.data.timestamp
    requires forall s: string :: srv.castUuid(s).Some? ==> '|' !in srv.castUuid(s).value
    ensures NoBars(r)
  {
    ActionsPlain();
    UserUuidPlain(requests[r.xid].sub);
  }

  lemma {:induction false} RunIsSound(srv: Server, steps: seq<Step>, tenant: string)
    requires InTurn(srv, steps, tenant) && PlainTexts(srv, steps)
    ensures Sound(srv, Ledger(Run(srv, INITIAL, steps), tenant))
  {
    var w := Run(srv, INITIAL, steps);
    LedgerIsChained(srv, steps, tenant);
    InvRun(srv, steps);
    PlainTimesRun(srv, steps);
    var l := Ledger(w, tenant);
    forall i | 0 <= i < |l| ensures NoBars(l[i]) && |l[i].data.blockHash| == 64 {
      SelectedRows(w.auditRows, w.status, -1, tenant, l[i]);
      RowIsPlain(srv, w.requests, l[i]);
    }
  }

  /** Whoever notes the last block hash of a tenant holds its ledger to all that was written before. */
  lemma {:induction false} TipCommitsToHistory(srv: Server, steps: seq<Step>, tenant: string, shown: seq<Row<AuditData>>)
    requires InTurn(srv, steps, tenant) && PlainTexts(srv, steps)
    requires Sound(srv, shown) && Tip(shown) == Tip(Ledger(Run(srv, INITIAL, steps), tenant))
    ensures var l := Ledger(Run(srv, INITIAL, steps), tenant);
      Agree(srv, l, shown) || CollisionBetween(srv, l, shown) || HitsGenesis(l) || HitsGenesis(shown)
  {
    RunIsSound(srv, steps, tenant);
    TipDeterminesLedger(srv, Ledger(Run(srv, INITIAL, steps), tenant), shown);
  }
}
