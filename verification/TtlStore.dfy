/**
 * The two in-memory stores with expiry: the replay cache of the gateway and the IdP's store of
 * authorization codes and proof identifiers. Both are swept in the background, by a sweeper that
 * looks at an entry and deletes it afterwards; the theorem says exactly when an answer of a replay cache
 * depends on it. Here calls are not interrupted; modules ReplayCache and CodeStore take them apart too.
 */
module TtlStore {
  import opened Common

  datatype CodeInfo = CodeInfo(challenge: string, client: string, expiresAt: int)

  // ----- what one operation does to a store

  /** LoadOrStore, and Store over an entry that has expired. */
  function CheckAndSave(m: map<string, int>, jti: string, ttl: int, now: int): (bool, map<string, int>) {
    if jti in m && now < m[jti] then (true, m) else (false, m[jti := now + ttl])
  }

  /** Load, then Delete whether or not the code has expired. */
  function Redeem(m: map<string, CodeInfo>, code: string, now: int): (Option<(string, string)>, map<string, CodeInfo>) {
    if code !in m then (None, m)
    else if now > m[code].expiresAt then (None, m - {code})
    else (Some((m[code].challenge, m[code].client)), m - {code})
  }

  // ----- the stores themselves

  /** JTICache of the gateway. */
  class JtiCache {
    var jtis: map<string, int>

    constructor ()
      ensures jtis == map[]
    {
      jtis := map[];
    }

    method IsJtiUsedAndSave(jti: string, ttl: int, now: int) returns (used: bool)
      modifies this
      ensures (used, jtis) == CheckAndSave(old(jtis), jti, ttl, now)
      ensures used <==> jti in old(jtis) && now < old(jtis)[jti]
      ensures jtis == if used then old(jtis) else old(jtis)[jti := now + ttl]
    {
      if jti in jtis {
        var expireTime := jtis[jti];
        if now < expireTime {
          return true;
        }
        jtis := jtis[jti := now + ttl];
        return false;
      }
      jtis := jtis[jti := now + ttl];
      return false;
    }

    /** One tick of the cleanup goroutine, when no other call comes in between. */
    method Cleanup(now: int)
      modifies this
      ensures jtis == map k | k in old(jtis) && now <= old(jtis)[k] :: old(jtis)[k]
    {
      var left := jtis.Keys;
      while left != {}
        invariant left <= old(jtis).Keys && jtis.Keys <= old(jtis).Keys
        invariant forall k :: k in old(jtis) ==>
          (k in jtis <==> k in left || now <= old(jtis)[k]) && (k in jtis ==> jtis[k] == old(jtis)[k])
      {
        var key :| key in left;
        if now > jtis[key] {
          jtis := jtis - {key};
        }
        left := left - {key};
      }
    }
  }

  /** RAMStore of the IdP. */
  class RamStore {
    var codes: map<string, CodeInfo>
    var jtis: map<string, int>

    constructor ()
      ensures codes == map[] && jtis == map[]
    {
      codes, jtis := map[], map[];
    }

    method SaveAuthCode(code: string, challenge: string, client: string, ttl: int, now: int)
      modifies this`codes
      ensures codes == old(codes)[code := CodeInfo(challenge, client, now + ttl)]
    {
      codes := codes[code := CodeInfo(challenge, client, now + ttl)];
    }

    method GetAndRemoveAuthCode(code: string, now: int) returns (found: Option<(string, string)>)
      modifies this`codes
      ensures (found, codes) == Redeem(old(codes), code, now)
      ensures codes == old(codes) - {code}
      ensures found == if code in old(codes) && now <= old(codes)[code].expiresAt
                       then Some((old(codes)[code].challenge, old(codes)[code].client)) else None
    {
      if code !in codes {
        return None;
      }
      var info := codes[code];
      codes := codes - {code};
      if now > info.expiresAt {
        return None;
      }
      return Some((info.challenge, info.client));
    }

    method IsJtiUsedAndSave(jti: string, ttl: int, now: int) returns (used: bool)
      modifies this`jtis
      ensures (used, jtis) == CheckAndSave(old(jtis), jti, ttl, now)
      ensures used <==> jti in old(jtis) && now < old(jtis)[jti]
      ensures jtis == if used then old(jtis) else old(jtis)[jti := now + ttl]
    {
      used := jti in jtis && now < jtis[jti];
      if !used {
        jtis := jtis[jti := now + ttl];
      }
    }

    /** One tick of the cleanup goroutine: the codes, then the proof identifiers. */
    method Cleanup(now: int)
      modifies this
      ensures codes == map k | k in old(codes) && now <= old(codes)[k].expiresAt :: old(codes)[k]
      ensures jtis == map k | k in old(jtis) && now <= old(jtis)[k] :: old(jtis)[k]
    {
      var left := codes.Keys;
      while left != {}
        invariant left <= old(codes).Keys && codes.Keys <= old(codes).Keys && jtis == old(jtis)
        invariant forall k :: k in old(codes) ==>
          (k in codes <==> k in left || now <= old(codes)[k].expiresAt) && (k in codes ==> codes[k] == old(codes)[k])
      {
        var key :| key in left;
        if now > codes[key].expiresAt {
          codes := codes - {key};
        }
        left := left - {key};
      }
      left := jtis.Keys;
      while left != {}
        invariant left <= old(jtis).Keys && jtis.Keys <= old(jtis).Keys
        invariant codes == map k | k in old(codes) && now <= old(codes)[k].expiresAt :: old(codes)[k]
        invariant forall k :: k in old(jtis) ==>
          (k in jtis <==> k in left || now <= old(jtis)[k]) && (k in jtis ==> jtis[k] == old(jtis)[k])
      {
        var key :| key in left;
        if now > jtis[key] {
          jtis := jtis - {key};
        }
        left := left - {key};
      }
    }
  }

  // ----- replay caches against their full history

  /** What happens to a replay cache, with the clock at each: calls, a sweeper's look at a key, and its delete afterwards. */
  datatype JtiOp =
    | Check(jti: string, ttl: int, at: int)
    | Look(key: string, readAt: int, at: int)
    | Delete(look: nat, at: int)

  predicate JtiClock(ops: seq<JtiOp>) {
    && (forall i, j :: 0 <= i < j < |ops| ==> ops[i].at <= ops[j].at)
    && (forall i :: 0 <= i < |ops| && ops[i].Look? ==> ops[i].readAt <= ops[i].at)
  }

  /** Operation `look` found an entry of `key` that had run out by the sweeper's clock. */
  predicate Condemns(ops: seq<JtiOp>, look: int, key: string)
    decreases |ops|, 0
  {
    0 <= look < |ops| && ops[look].Look? && ops[look].key == key
    && key in JtisAfter(ops[..look]) && ops[look].readAt > JtisAfter(ops[..look])[key]
  }

  /** A delete follows a look that condemned its key, and does not look again. */
  function JtisAfter(ops: seq<JtiOp>): map<string, int>
    decreases |ops|, 1
  {
    if ops == [] then map[]
    else
      var before, op := ops[..|ops| - 1], ops[|ops| - 1];
      match op
      case Check(jti, ttl, at) => CheckAndSave(JtisAfter(before), jti, ttl, at).1
      case Look(_, _, _) => JtisAfter(before)
      case Delete(look, _) =>
        if look < |before| && before[look].Look? && Condemns(before, look, before[look].key)
        then JtisAfter(before) - {before[look].key} else JtisAfter(before)
  }

  /** A call that was let through claims its jti until some moment. */
  datatype Lease = Lease(jti: string, until: int)

  ghost predicate Claimed(leases: set<Lease>, jti: string, now: int) {
    exists l :: l in leases && l.jti == jti && now < l.until
  }

  /** Call `p` was let through: the map held no live entry. */
  predicate Passed(ops: seq<JtiOp>, p: int) {
    0 <= p < |ops| && ops[p].Check? && !CheckAndSave(JtisAfter(ops[..p]), ops[p].jti, ops[p].ttl, ops[p].at).0
  }

  /** The full history, which forgets nothing: the leases of all calls let through so far. */
  ghost function Leases(ops: seq<JtiOp>): set<Lease> {
    if ops == [] then {} else
      var before, op := Leases(ops[..|ops| - 1]), ops[|ops| - 1];
      if Passed(ops, |ops| - 1) then before + {Lease(op.jti, op.at + op.ttl)} else before
  }

  /** Whatever call of this jti may come next, now or later, the map answers it as the full history does. */
  ghost predicate AnswersRight(ops: seq<JtiOp>, jti: string) {
    forall t :: (ops != [] ==> ops[|ops| - 1].at <= t) ==>
      (jti in JtisAfter(ops) && t < JtisAfter(ops)[jti] <==> Claimed(Leases(ops), jti, t))
  }

  /** At every point of the run. */
  ghost predicate AlwaysAnswersRight(ops: seq<JtiOp>, jti: string) {
    forall n :: 0 <= n <= |ops| ==> AnswersRight(ops[..n], jti)
  }

  /** Call `p` got a lease of `jti` between the sweeper's look and its delete `d`, and it is still running at the delete. */
  predicate LeaseSweptAway(ops: seq<JtiOp>, jti: string, p: int, d: int) {
    && 0 <= d < |ops| && ops[d].Delete? && ops[d].look < p < d && Condemns(ops[..d], ops[d].look, jti)
    && Passed(ops, p) && ops[p].jti == jti && ops[d].at < ops[p].at + ops[p].ttl
  }

  lemma {:induction false} PassedEarlier(ops: seq<JtiOp>, n: nat, p: nat)
    requires p < n <= |ops|
    ensures Passed(ops[..n], p) <==> Passed(ops, p)
  {
    assert ops[..n][..p] == ops[..p];
  }

  /** Every lease was given to some call. */
  lemma {:induction false} LeaseOfCall(ops: seq<JtiOp>, l: Lease) returns (p: nat)
    requires l in Leases(ops)
    ensures p < |ops| && Passed(ops, p) && l == Lease(ops[p].jti, ops[p].at + ops[p].ttl)
  {
    var last := |ops| - 1;
    if Passed(ops, last) && l == Lease(ops[last].jti, ops[last].at + ops[last].ttl) {
      p := last;
    } else {
      p := LeaseOfCall(ops[..last], l);
      PassedEarlier(ops, last, p);
    }
  }

  lemma {:induction false} CallHasLease(ops: seq<JtiOp>, p: nat)
    requires p < |ops| && Passed(ops, p)
    ensures Lease(ops[p].jti, ops[p].at + ops[p].ttl) in Leases(ops)
  {
    if p < |ops| - 1 {
      PassedEarlier(ops, |ops| - 1, p);
      CallHasLease(ops[..|ops| - 1], p);
    }
  }

  lemma {:induction false} CheckKeepsRight(ops: seq<JtiOp>, jti: string)
    requires JtiClock(ops) && ops != [] && ops[|ops| - 1].Check? && AnswersRight(ops[..|ops| - 1], jti)
    ensures AnswersRight(ops, jti)
  {
    var before, op := ops[..|ops| - 1], ops[|ops| - 1];
    forall t | op.at <= t ensures jti in JtisAfter(ops) && t < JtisAfter(ops)[jti] <==> Claimed(Leases(ops), jti, t) {
      assert jti in JtisAfter(before) && t < JtisAfter(before)[jti] <==> Claimed(Leases(before), jti, t);
      assert jti in JtisAfter(before) && op.at < JtisAfter(before)[jti] <==> Claimed(Leases(before), jti, op.at);
      if op.jti == jti && Passed(ops, |ops| - 1) {
        assert Lease(jti, op.at + op.ttl) in Leases(ops);
        assert forall l :: l in Leases(before) && l.jti == jti ==> l.until <= op.at;
      }
    }
  }

  lemma {:induction false} LookKeepsRight(ops: seq<JtiOp>, jti: string)
    requires JtiClock(ops) && ops != [] && ops[|ops| - 1].Look? && AnswersRight(ops[..|ops| - 1], jti)
    ensures AnswersRight(ops, jti)
  {
  }

  /** Nothing that still runs when a delete comes was given before its look. */
  lemma {:induction false} RunOutAtLook(ops: seq<JtiOp>, jti: string, d: nat, l: Lease)
    requires JtiClock(ops) && d < |ops| && ops[d].Delete? && Condemns(ops[..d], ops[d].look, jti)
    requires AnswersRight(ops[..ops[d].look], jti)
    requires l in Leases(ops[..ops[d].look]) && l.jti == jti
    ensures l.until <= ops[d].at
  {
    var look := ops[d].look;
    var prior, t := ops[..look], ops[look].at;
    assert ops[..d][..look] == prior && ops[..d][look] == ops[look];
    assert jti in JtisAfter(prior) && t < JtisAfter(prior)[jti] <==> Claimed(Leases(prior), jti, t);
  }

  lemma {:induction false} DeleteKeepsRight(ops: seq<JtiOp>, jti: string, d: nat)
    requires JtiClock(ops) && d == |ops| - 1 && ops[d].Delete?
    requires forall n :: 0 <= n < |ops| ==> AnswersRight(ops[..n], jti)
    requires forall p :: !LeaseSweptAway(ops, jti, p, d)
    ensures AnswersRight(ops, jti)
  {
    var before, op := ops[..d], ops[d];
    if Condemns(before, op.look, jti) {
      forall l | l in Leases(before) && l.jti == jti ensures l.until <= op.at {
        var p := LeaseOfCall(before, l);
        PassedEarlier(ops, d, p);
        assert !LeaseSweptAway(ops, jti, p, d);
        if p < op.look {
          PassedEarlier(ops, op.look, p);
          CallHasLease(ops[..op.look], p);
          RunOutAtLook(ops, jti, d, l);
        }
      }
    } else {
      assert AnswersRight(before, jti);
    }
  }

  lemma {:induction false} RightWithoutLoss(ops: seq<JtiOp>, jti: string, n: nat)
    requires JtiClock(ops) && n <= |ops| && forall p, d :: !LeaseSweptAway(ops, jti, p, d)
    ensures forall m :: 0 <= m <= n ==> AnswersRight(ops[..m], jti)
  {
    if n > 0 {
      RightWithoutLoss(ops, jti, n - 1);
      var prior, d := ops[..n], n - 1;
      assert forall m :: 0 <= m < n ==> prior[..m] == ops[..m];
      assert JtiClock(prior);
      match prior[n - 1]
      case Check(_, _, _) => CheckKeepsRight(prior, jti);
      case Look(_, _, _) => LookKeepsRight(prior, jti);
      case Delete(_, _) =>
        forall p ensures !LeaseSweptAway(prior, jti, p, d) {
          assert !LeaseSweptAway(ops, jti, p, d);
          if 0 <= p < n {
            PassedEarlier(ops, n, p);
          }
        }
        DeleteKeepsRight(prior, jti, d);
    }
  }

  lemma {:induction false} LossIsWrong(ops: seq<JtiOp>, jti: string, p: nat, d: nat)
    requires LeaseSweptAway(ops, jti, p, d)
    ensures !AnswersRight(ops[..d + 1], jti)
  {
    var all := ops[..d + 1];
    assert all[..d] == ops[..d] && all[d] == ops[d];
    PassedEarlier(ops, d + 1, p);
    CallHasLease(all, p);
    assert Claimed(Leases(all), jti, ops[d].at);
  }

  /**
   * Exactly when the sweeper cannot be noticed: every call that may come at any point of a run is answered as
   * the full history says if and only if no lease still running is deleted because it was given between the
   * sweeper's look at its jti and its delete.
   */
  lemma {:induction false} JtiSweepsInvisibleIff(ops: seq<JtiOp>, jti: string)
    requires JtiClock(ops)
    ensures AlwaysAnswersRight(ops, jti) <==> forall p, d :: !LeaseSweptAway(ops, jti, p, d)
  {
    if forall p, d :: !LeaseSweptAway(ops, jti, p, d) {
      RightWithoutLoss(ops, jti, |ops|);
    } else {
      var p, d :| LeaseSweptAway(ops, jti, p, d);
      LossIsWrong(ops, jti, p, d);
    }
  }

  /** A run in which it is noticed: looked at when it has run out, renewed, deleted, and let through again at once. */
  lemma JtiSweepNoticed(jti: string)
    ensures var ops := [Check(jti, 1, 0), Look(jti, 2, 2), Check(jti, 2, 2), Delete(1, 3), Check(jti, 2, 3)];
      JtiClock(ops) && Passed(ops, 2) && Passed(ops, 4) && ops[4].at < ops[2].at + ops[2].ttl
  {
    var o0, o1, o2, o3, o4 := Check(jti, 1, 0), Look(jti, 2, 2), Check(jti, 2, 2), Delete(1, 3), Check(jti, 2, 3);
    var ops := [o0, o1, o2, o3, o4];
    assert ops[..4] == [o0, o1, o2, o3] && ops[..2] == [o0, o1];
    assert [o0, o1, o2, o3][..3] == [o0, o1, o2] && [o0, o1, o2][..2] == [o0, o1] && [o0, o1][..1] == [o0] && [o0][..0] == [];
    assert [o0, o1, o2][..1] == [o0];
    assert JtisAfter([o0]) == map[jti := 1];
    assert JtisAfter([o0, o1]) == map[jti := 1];
    assert JtisAfter([o0, o1, o2]) == map[jti := 4];
    assert Condemns([o0, o1, o2], 1, jti);
    assert JtisAfter([o0, o1, o2, o3]) == map[];
  }
}
