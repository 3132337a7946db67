/**
 * The store of authorization codes with the steps of its calls apart: the Load and the Delete of
 * GetAndRemoveAuthCode, and the sweeper's look and delete, of any number of calls and sweepers in any
 * order. The log of these steps says exactly which redemptions are answered, and so exactly when a code
 * is good for more than one.
 */
module CodeStore {
  import opened Common
  import opened TtlStore

  /** The steps, with the clock at each. A Delete names the load, or the look, that it follows. */
  datatype Event =
    | Saved(code: string, info: CodeInfo, at: int)
    | Loaded(code: string, at: int)
    | Removed(load: nat, at: int)
    | Looked(code: string, readAt: int, at: int)
    | Swept(look: nat, at: int)

  predicate Saves(log: seq<Event>, k: string, s: int) {
    0 <= s < |log| && log[s].Saved? && log[s].code == k
  }

  /** Event `p` is the Delete of a redemption of code `k`. */
  predicate Redeems(log: seq<Event>, k: string, p: int) {
    0 <= p < |log| && log[p].Removed? && log[p].load < p && log[log[p].load].Loaded? && log[log[p].load].code == k
  }

  predicate Sweeps(log: seq<Event>, k: string, p: int) {
    0 <= p < |log| && log[p].Swept? && log[p].look < p && log[log[p].look].Looked? && log[log[p].look].code == k
  }

  /** What the store holds for a code after the log. */
  function Held(log: seq<Event>, k: string): Option<CodeInfo> {
    if log == [] then None
    else
      var last := |log| - 1;
      if Saves(log, k, last) then Some(log[last].info)
      else if Redeems(log, k, last) || Sweeps(log, k, last) then None
      else Held(log[..last], k)
  }

  predicate IsLoad(log: seq<Event>, n: int) {
    0 <= n < |log| && log[n].Loaded?
  }

  predicate Finds(log: seq<Event>, n: int) {
    IsLoad(log, n) && Held(log[..n], log[n].code).Some?
  }

  predicate RemovedBy(log: seq<Event>, n: int, p: int) {
    0 <= n < p < |log| && log[p].Removed? && log[p].load == n
  }

  /** Steps follow what their code has done before: a load that finds a code deletes once, a look that finds it run out deletes. */
  predicate EventOk(log: seq<Event>, n: int) {
    0 <= n < |log|
    && match log[n]
       case Saved(code, _, _) => forall m :: 0 <= m < n ==> !Saves(log, code, m)
       case Loaded(_, _) => true
       case Removed(l, _) => l < n && Finds(log, l) && forall m :: l < m < n ==> !RemovedBy(log, l, m)
       case Looked(code, readAt, at) => readAt <= at && Held(log[..n], code).Some? && Held(log[..n], code).value.expiresAt < readAt
       case Swept(l, _) => l < n && log[l].Looked?
  }

  /** Codes are random: none is saved twice. */
  ghost predicate Proper(log: seq<Event>) {
    && (forall i, j :: 0 <= i < j < |log| ==> log[i].at <= log[j].at)
    && (forall n :: 0 <= n < |log| ==> EventOk(log, n))
  }

  // ----- when a load finds its code

  lemma {:induction false} PrefixSame(log: seq<Event>, n: nat, k: string)
    requires n <= |log|
    ensures forall p :: 0 <= p < n ==> log[..n][..p] == log[..p] && (Saves(log[..n], k, p) <==> Saves(log, k, p))
    ensures forall p :: 0 <= p < n ==> (Redeems(log[..n], k, p) <==> Redeems(log, k, p)) && (Sweeps(log[..n], k, p) <==> Sweeps(log, k, p))
    ensures n > 0 ==> log[..n][..n - 1] == log[..n - 1]
  {
  }

  lemma {:induction false} HeldWasSaved(log: seq<Event>, k: string, n: nat) returns (s: nat)
    requires n <= |log| && Held(log[..n], k).Some?
    ensures s < n && Saves(log, k, s) && log[s].info == Held(log[..n], k).value
  {
    PrefixSame(log, n, k);
    if Saves(log, k, n - 1) {
      s := n - 1;
    } else {
      s := HeldWasSaved(log, k, n - 1);
    }
  }

  lemma {:induction false} DeletedWasSaved(log: seq<Event>, k: string, p: nat) returns (s: nat)
    requires Proper(log) && (Redeems(log, k, p) || Sweeps(log, k, p))
    ensures s < p && Saves(log, k, s)
  {
    assert EventOk(log, p);
    var l := if log[p].Removed? then log[p].load else log[p].look;
    assert EventOk(log, l);
    s := HeldWasSaved(log, k, l);
  }

  ghost predicate SavedBefore(log: seq<Event>, k: string, n: nat) {
    exists s :: s < n && Saves(log, k, s)
  }

  ghost predicate NotRedeemed(log: seq<Event>, k: string, n: nat) {
    forall p :: p < n ==> !Redeems(log, k, p)
  }

  ghost predicate NotSwept(log: seq<Event>, k: string, n: nat) {
    forall p :: p < n ==> !Sweeps(log, k, p)
  }

  /** A code is there exactly from when it is saved until it is first deleted. */
  lemma {:induction false} HeldIff(log: seq<Event>, k: string, n: nat)
    requires Proper(log) && n <= |log|
    ensures Held(log[..n], k).Some? <==> SavedBefore(log, k, n) && NotRedeemed(log, k, n) && NotSwept(log, k, n)
  {
    PrefixSame(log, n, k);
    if n > 0 {
      HeldIff(log, k, n - 1);
      assert EventOk(log, n - 1);
      if Saves(log, k, n - 1) {
        forall p | p < n ensures !Redeems(log, k, p) && !Sweeps(log, k, p) {
          if Redeems(log, k, p) || Sweeps(log, k, p) {
            var s := DeletedWasSaved(log, k, p);
          }
        }
      }
    }
  }

  lemma {:induction false} SavedOnce(log: seq<Event>, k: string, s: int, s': int)
    requires Proper(log) && Saves(log, k, s) && Saves(log, k, s')
    ensures s == s'
  {
    assert EventOk(log, s) && EventOk(log, s');
  }

  // ----- what redemptions are answered

  /** The answer to the call that loads at `n`, which checks the expiry at `now`. */
  function Answer(log: seq<Event>, n: nat, now: int): Option<CodeInfo>
    requires IsLoad(log, n)
  {
    var held := Held(log[..n], log[n].code);
    if held.Some? && now <= held.value.expiresAt then held else None
  }

  /** A code is worth what it was saved with, until it runs out or a redemption has deleted it. No sweeper is mentioned. */
  ghost predicate Owed(log: seq<Event>, n: nat, now: int, s: int)
    requires IsLoad(log, n)
  {
    s < n && Saves(log, log[n].code, s) && now <= log[s].info.expiresAt && NotRedeemed(log, log[n].code, n)
  }

  /** What a sweeper has deleted had run out. */
  lemma {:induction false} SweptHasRunOut(log: seq<Event>, k: string, p: int, s: int, now: int)
    requires Proper(log) && Sweeps(log, k, p) && Saves(log, k, s) && log[p].at <= now
    ensures log[s].info.expiresAt < now
  {
    var l := log[p].look;
    assert EventOk(log, l);
    var s' := HeldWasSaved(log, k, l);
    SavedOnce(log, k, s, s');
  }

  /** In every run, whatever is swept: a redemption is answered what is owed for the code, and nothing if nothing is. */
  lemma {:induction false} SweepsAreInvisible(log: seq<Event>, n: nat, now: int)
    requires Proper(log) && IsLoad(log, n) && log[n].at <= now
    ensures Answer(log, n, now).Some? <==> exists s :: Owed(log, n, now, s)
    ensures forall s :: Owed(log, n, now, s) ==> Answer(log, n, now) == Some(log[s].info)
  {
    var k := log[n].code;
    HeldIff(log, k, n);
    if Held(log[..n], k).Some? {
      var s := HeldWasSaved(log, k, n);
      assert Answer(log, n, now).Some? ==> Owed(log, n, now, s);
      forall s' | Owed(log, n, now, s') ensures Answer(log, n, now) == Some(log[s'].info) {
        SavedOnce(log, k, s, s');
      }
    } else {
      forall s ensures !Owed(log, n, now, s) {
        if Owed(log, n, now, s) {
          var p :| p < n && Sweeps(log, k, p);
          SweptHasRunOut(log, k, p, s, now);
        }
      }
    }
  }

  /**
   * Exactly when a code is good for another redemption: once one call has been answered, a call that loads
   * later is answered too if and only if the code has not run out and no call has deleted it yet, the
   * first one included.
   */
  lemma {:induction false} AnsweredAgainIff(log: seq<Event>, n: nat, n': nat, now: int, now': int)
    requires Proper(log) && IsLoad(log, n) && IsLoad(log, n') && n < n' && log[n].code == log[n'].code
    requires log[n].at <= now && log[n'].at <= now' && Answer(log, n, now).Some?
    ensures Answer(log, n', now').Some? <==> now' <= Answer(log, n, now).value.expiresAt && NotRedeemed(log, log[n].code, n')
  {
    SweepsAreInvisible(log, n, now);
    SweepsAreInvisible(log, n', now');
    var s :| Owed(log, n, now, s);
    forall s' | Owed(log, n', now', s') ensures s' == s {
      SavedOnce(log, log[n].code, s, s');
    }
    if now' <= log[s].info.expiresAt && NotRedeemed(log, log[n].code, n') {
      assert Owed(log, n', now', s);
    }
  }

  /** Two calls that are both answered have both loaded before any of them deletes. */
  ghost predicate Together(log: seq<Event>, n: nat, n': nat) {
    && IsLoad(log, n) && IsLoad(log, n') && log[n].code == log[n'].code
    && forall p :: Redeems(log, log[n].code, p) ==> n < p && n' < p
  }

  /** Of two calls that found one code each loaded before either deleted it. */
  lemma {:induction false} BothFindTogether(log: seq<Event>, n: nat, n': nat)
    requires Proper(log) && Finds(log, n) && Finds(log, n') && log[n].code == log[n'].code
    ensures Together(log, n, n')
  {
    HeldIff(log, log[n].code, n);
    HeldIff(log, log[n].code, n');
  }

  /** Such a run: both calls load before either deletes, and both are answered. */
  lemma {:induction false} CodeRedeemedTwice(code: string, info: CodeInfo)
    ensures var t := info.expiresAt;
      var log := [Saved(code, info, t), Loaded(code, t), Loaded(code, t), Removed(1, t), Removed(2, t)];
      Proper(log) && Answer(log, 1, t) == Some(info) && Answer(log, 2, t) == Some(info)
  {
    var t := info.expiresAt;
    var log := [Saved(code, info, t), Loaded(code, t), Loaded(code, t), Removed(1, t), Removed(2, t)];
    assert log[..1] == [Saved(code, info, t)] && log[..2] == [Saved(code, info, t), Loaded(code, t)];
    assert log[..2][..1] == log[..1] && log[..1][..0] == [];
    assert Held(log[..1], code) == Some(info);
    assert Held(log[..2], code) == Some(info);
    assert EventOk(log, 0) && EventOk(log, 1) && EventOk(log, 2) && EventOk(log, 3) && EventOk(log, 4);
  }

  // ----- the store that these steps change

  datatype Codes = Codes(entries: map<string, CodeInfo>, log: seq<Event>)

  const EMPTY := Codes(map[], [])

  function DoSave(c: Codes, code: string, info: CodeInfo, at: int): Codes {
    Codes(c.entries[code := info], c.log + [Saved(code, info, at)])
  }

  function DoLoad(c: Codes, code: string, at: int): (Option<CodeInfo>, Codes) {
    (if code in c.entries then Some(c.entries[code]) else None, c.(log := c.log + [Loaded(code, at)]))
  }

  function DoRemove(c: Codes, load: nat, at: int): Codes
    requires IsLoad(c.log, load)
  {
    Codes(c.entries - {c.log[load].code}, c.log + [Removed(load, at)])
  }

  /** A sweeper looks at a code, and keeps it in mind if it has run out. */
  function DoLook(c: Codes, code: string, readAt: int, at: int): Codes {
    if code in c.entries && readAt > c.entries[code].expiresAt then c.(log := c.log + [Looked(code, readAt, at)]) else c
  }

  function DoSweep(c: Codes, look: nat, at: int): Codes {
    if look < |c.log| && c.log[look].Looked? then Codes(c.entries - {c.log[look].code}, c.log + [Swept(look, at)]) else c
  }

  /** The map is what the log says, and the log is of steps that may have happened by `now`. */
  ghost predicate CodesOk(c: Codes, now: int) {
    && Proper(c.log) && (c.log != [] ==> c.log[|c.log| - 1].at <= now)
    && forall k :: Held(c.log, k) == if k in c.entries then Some(c.entries[k]) else None
  }

  /** What a longer log says of its beginning. */
  lemma {:induction false} Extends(log: seq<Event>, log': seq<Event>)
    requires log <= log'
    ensures forall n :: 0 <= n <= |log| ==> log'[..n] == log[..n]
    ensures forall n :: 0 <= n < |log| ==> (Finds(log', n) <==> Finds(log, n))
  {
    assert forall n :: 0 <= n <= |log| ==> log'[..n] == log[..n];
  }

  lemma {:induction false} ProperAppend(log: seq<Event>, e: Event)
    requires Proper(log) && (log != [] ==> log[|log| - 1].at <= e.at) && EventOk(log + [e], |log|)
    ensures Proper(log + [e])
  {
    var all := log + [e];
    Extends(log, all);
    forall n | 0 <= n < |log| ensures EventOk(all, n) {
      assert EventOk(log, n);
      match log[n]
      case Saved(code, _, _) =>
        forall m | 0 <= m < n ensures !Saves(all, code, m) {
          assert !Saves(log, code, m);
        }
      case Removed(l, _) =>
        forall m | l < m < n ensures !RemovedBy(all, l, m) {
          assert !RemovedBy(log, l, m);
        }
      case _ =>
    }
  }

  lemma {:induction false} HeldAppend(log: seq<Event>, e: Event, k: string)
    ensures var all, n := log + [e], |log|;
      Held(all, k) == if Saves(all, k, n) then Some(e.info) else if Redeems(all, k, n) || Sweeps(all, k, n) then None else Held(log, k)
  {
    assert (log + [e])[..|log|] == log;
  }

  lemma {:induction false} SaveKeeps(c: Codes, code: string, info: CodeInfo, at: int)
    requires CodesOk(c, at) && forall m :: !Saves(c.log, code, m)
    ensures CodesOk(DoSave(c, code, info, at), at)
  {
    var e := Saved(code, info, at);
    forall m | 0 <= m < |c.log| ensures !Saves(c.log + [e], code, m) {
      assert !Saves(c.log, code, m);
    }
    ProperAppend(c.log, e);
    forall k ensures Held(c.log + [e], k) == if k in DoSave(c, code, info, at).entries then Some(DoSave(c, code, info, at).entries[k]) else None {
      HeldAppend(c.log, e, k);
    }
  }

  lemma {:induction false} LoadKeeps(c: Codes, code: string, at: int)
    requires CodesOk(c, at)
    ensures CodesOk(DoLoad(c, code, at).1, at)
    ensures Finds(DoLoad(c, code, at).1.log, |c.log|) <==> DoLoad(c, code, at).0.Some?
  {
    var e := Loaded(code, at);
    ProperAppend(c.log, e);
    assert (c.log + [e])[..|c.log|] == c.log;
    forall k ensures Held(c.log + [e], k) == Held(c.log, k) {
      HeldAppend(c.log, e, k);
    }
  }

  /** A call that has found a code and not yet deleted it. */
  predicate Waits(c: Codes, load: int) {
    Finds(c.log, load) && forall m :: load < m < |c.log| ==> !RemovedBy(c.log, load, m)
  }

  lemma {:induction false} RemoveKeeps(c: Codes, load: nat, at: int)
    requires CodesOk(c, at) && Waits(c, load)
    ensures CodesOk(DoRemove(c, load, at), at)
  {
    var e := Removed(load, at);
    Extends(c.log, c.log + [e]);
    forall m | load < m < |c.log| ensures !RemovedBy(c.log + [e], load, m) {
      assert !RemovedBy(c.log, load, m);
    }
    ProperAppend(c.log, e);
    forall k ensures Held(c.log + [e], k) == if k in DoRemove(c, load, at).entries then Some(DoRemove(c, load, at).entries[k]) else None {
      HeldAppend(c.log, e, k);
    }
  }

  lemma {:induction false} LookKeeps(c: Codes, code: string, readAt: int, at: int)
    requires CodesOk(c, at) && readAt <= at
    ensures var c' := DoLook(c, code, readAt, at);
      CodesOk(c', at) && c.log <= c'.log && forall n :: |c.log| <= n < |c'.log| ==> c'.log[n].Looked?
  {
    if DoLook(c, code, readAt, at) != c {
      var e := Looked(code, readAt, at);
      assert (c.log + [e])[..|c.log|] == c.log;
      ProperAppend(c.log, e);
      forall k ensures Held(c.log + [e], k) == Held(c.log, k) {
        HeldAppend(c.log, e, k);
      }
    }
  }

  lemma {:induction false} SweepKeeps(c: Codes, look: nat, at: int)
    requires CodesOk(c, at)
    ensures var c' := DoSweep(c, look, at);
      CodesOk(c', at) && c.log <= c'.log && forall n :: |c.log| <= n < |c'.log| ==> c'.log[n].Swept?
  {
    if look < |c.log| && c.log[look].Looked? {
      var e := Swept(look, at);
      ProperAppend(c.log, e);
      forall k ensures Held(c.log + [e], k) == if k in DoSweep(c, look, at).entries then Some(DoSweep(c, look, at).entries[k]) else None {
        HeldAppend(c.log, e, k);
      }
    }
  }
}
