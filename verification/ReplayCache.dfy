/**
 * The replay cache with the steps of its calls apart: LoadOrStore, the Store over an expired entry, and the
 * sweeper's look and delete, of any number of calls and sweepers in any order. The log of these steps says
 * exactly which calls are let through.
 */
module ReplayCache {
  import opened Common
  import TtlStore

  /** How long both servers remember a jti. */
  const JTI_TTL := 120 * SECOND

  /**
   * The steps, with the clock at each. A call that read its clock at `now` loads, and claims its jti `until`;
   * its store, and the delete of a sweeper, name the event that they follow.
   */
  datatype Event =
    | Load(jti: string, now: int, until: int, at: int)
    | Store(load: nat, at: int)
    | Look(key: string, readAt: int, at: int)
    | Delete(look: nat, at: int)

  /** Event `p` stores over the entry of `k`, or deletes it. */
  predicate Undoes(log: seq<Event>, k: string, p: int) {
    0 <= p < |log|
    && match log[p]
       case Store(l, _) => l < p && log[l].Load? && log[l].jti == k
       case Delete(l, _) => l < p && log[l].Look? && log[l].key == k
       case _ => false
  }

  /** The entry of `k` after the log. */
  function Entry(log: seq<Event>, k: string): Option<int> {
    if log == [] then None
    else
      var last := |log| - 1;
      var before := Entry(log[..last], k);
      match log[last]
      case Load(jti, _, until, _) => if jti == k && before.None? then Some(until) else before
      case Store(l, _) => if Undoes(log, k, last) then Some(log[l].until) else before
      case Delete(_, _) => if Undoes(log, k, last) then None else before
      case Look(_, _, _) => before
  }

  predicate IsLoad(log: seq<Event>, i: int) {
    0 <= i < |log| && log[i].Load?
  }

  /** Call `i` found no entry, and stored its own at once. */
  predicate Fresh(log: seq<Event>, i: int) {
    IsLoad(log, i) && Entry(log[..i], log[i].jti).None?
  }

  /** Call `i` found an entry that had run out, and has to store over it. */
  predicate Expired(log: seq<Event>, i: int) {
    IsLoad(log, i) && Entry(log[..i], log[i].jti).Some? && Entry(log[..i], log[i].jti).value <= log[i].now
  }

  /** Call `i` was let through. */
  predicate Passes(log: seq<Event>, i: int) {
    Fresh(log, i) || Expired(log, i)
  }

  predicate StoreOf(log: seq<Event>, i: int, p: int) {
    0 <= i < p < |log| && log[p].Store? && log[p].load == i
  }

  /** Steps follow what their code has done before: only a call that found an expired entry stores, and once. */
  predicate EventOk(log: seq<Event>, n: int) {
    0 <= n < |log|
    && match log[n]
       case Load(_, now, _, at) => now <= at
       case Store(l, _) => l < n && Expired(log, l) && forall m :: l < m < n ==> !StoreOf(log, l, m)
       case Look(key, readAt, at) => readAt <= at && Entry(log[..n], key).Some? && Entry(log[..n], key).value < readAt
       case Delete(l, _) => l < n && log[l].Look?
  }

  ghost predicate Proper(log: seq<Event>) {
    && (forall i, j :: 0 <= i < j < |log| ==> log[i].at <= log[j].at)
    && (forall n :: 0 <= n < |log| ==> EventOk(log, n))
  }

  // ----- leases and what becomes of them

  /** Call `i` wrote its entry at event `p`. */
  predicate WrittenBy(log: seq<Event>, i: int, p: int) {
    (p == i && Fresh(log, i)) || (StoreOf(log, i, p) && IsLoad(log, i))
  }

  /** The entry that call `i` wrote is there when event `n` comes. */
  ghost predicate Stands(log: seq<Event>, i: int, n: int) {
    IsLoad(log, i) && exists p :: p < n && WrittenBy(log, i, p) && Untouched(log, log[i].jti, p, n)
  }

  ghost predicate Untouched(log: seq<Event>, k: string, p: int, n: int) {
    forall c :: p < c < n ==> !Undoes(log, k, c)
  }

  /** By the clock of call `j` the lease of an earlier call `i` for the same jti still runs. */
  predicate Claims(log: seq<Event>, i: int, j: int) {
    IsLoad(log, j) && i < j && Passes(log, i) && log[i].jti == log[j].jti && log[j].now < log[i].until
  }

  lemma {:induction false} PrefixSame(log: seq<Event>, n: nat, k: string)
    requires n <= |log|
    ensures forall p :: 0 <= p < n ==> (Undoes(log[..n], k, p) <==> Undoes(log, k, p)) && log[..n][..p] == log[..p]
    ensures n > 0 ==> log[..n][..n - 1] == log[..n - 1]
  {
  }

  /** An entry that nobody touches stays. */
  lemma {:induction false} EntryStays(log: seq<Event>, k: string, p: nat, n: nat, v: int)
    requires p <= n <= |log| && Entry(log[..p], k) == Some(v) && forall c :: p <= c < n ==> !Undoes(log, k, c)
    ensures Entry(log[..n], k) == Some(v)
  {
    if p < n {
      EntryStays(log, k, p, n - 1, v);
      PrefixSame(log, n, k);
    }
  }

  lemma {:induction false} EntryWritten(log: seq<Event>, i: nat, p: nat)
    requires IsLoad(log, i) && p < |log| && WrittenBy(log, i, p)
    ensures Entry(log[..p + 1], log[i].jti) == Some(log[i].until)
  {
    PrefixSame(log, p + 1, log[i].jti);
  }

  lemma {:induction false} StandingIsEntry(log: seq<Event>, i: nat, p: nat, n: nat)
    requires IsLoad(log, i) && p < n <= |log| && WrittenBy(log, i, p) && Untouched(log, log[i].jti, p, n)
    ensures Entry(log[..n], log[i].jti) == Some(log[i].until)
  {
    EntryWritten(log, i, p);
    EntryStays(log, log[i].jti, p + 1, n, log[i].until);
  }

  /** Every entry was written by some call, and has not been touched since. */
  lemma {:induction false} EntryHasWriter(log: seq<Event>, k: string, n: nat) returns (i: nat, p: nat)
    requires Proper(log) && n <= |log| && Entry(log[..n], k).Some?
    ensures i <= p < n && IsLoad(log, i) && log[i].jti == k && Passes(log, i) && log[i].until == Entry(log[..n], k).value
    ensures WrittenBy(log, i, p) && Untouched(log, k, p, n)
  {
    PrefixSame(log, n, k);
    assert EventOk(log, n - 1);
    if Undoes(log, k, n - 1) {
      i, p := log[n - 1].load, n - 1;
    } else if log[n - 1].Load? && log[n - 1].jti == k && Entry(log[..n - 1], k).None? {
      i, p := n - 1, n - 1;
    } else {
      i, p := EntryHasWriter(log, k, n - 1);
    }
  }

  /** In every run: a call is let through if and only if no claim on its jti stands. */
  lemma {:induction false} PassesIff(log: seq<Event>, j: nat)
    requires Proper(log) && IsLoad(log, j)
    ensures Passes(log, j) <==> forall i :: 0 <= i && Claims(log, i, j) ==> !Stands(log, i, j)
  {
    if Passes(log, j) {
      forall i | 0 <= i && Claims(log, i, j) ensures !Stands(log, i, j) {
        if Stands(log, i, j) {
          var p :| p < j && WrittenBy(log, i, p) && Untouched(log, log[i].jti, p, j);
          StandingIsEntry(log, i, p, j);
        }
      }
    } else {
      var i, p := EntryHasWriter(log, log[j].jti, j);
      assert Claims(log, i, j) && Stands(log, i, j);
    }
  }

  // ----- overlaps

  /** Call `j` loads while call `i`, which has found an expired entry, has yet to store over it. */
  predicate LoadsBeforeStore(log: seq<Event>, i: int, j: int) {
    forall p :: i <= p < j ==> !WrittenBy(log, i, p)
  }

  /** The event that a store or delete follows up. */
  function Follows(log: seq<Event>, c: int): nat
    requires 0 <= c < |log|
  {
    match log[c]
    case Store(l, _) => l
    case Delete(l, _) => l
    case _ => 0
  }

  /** The entry of call `i` is undone at `c` by a call that had loaded, or a sweeper that had looked, before it was written at `p`. */
  predicate UndoneUnseen(log: seq<Event>, i: int, p: int, c: int) {
    && IsLoad(log, i) && WrittenBy(log, i, p) && p < c && Undoes(log, log[i].jti, c)
    && Follows(log, c) < p
  }

  /** Between its load and event `j` call `i` overlaps another call or a sweeper in one of these ways. */
  ghost predicate Overlapped(log: seq<Event>, i: int, j: int) {
    LoadsBeforeStore(log, i, j) || exists p, c :: c < j && UndoneUnseen(log, i, p, c)
  }

  lemma {:induction false} OneWrite(log: seq<Event>, i: nat, p: nat, q: nat)
    requires Proper(log) && WrittenBy(log, i, p) && WrittenBy(log, i, q)
    ensures p == q
  {
    assert StoreOf(log, i, p) ==> EventOk(log, p);
    assert StoreOf(log, i, q) ==> EventOk(log, q);
  }

  /** What undoes an entry first, while its lease runs, had not seen it. */
  lemma {:induction false} FirstUndoing(log: seq<Event>, i: nat, p: nat, c: nat, j: nat)
    requires Proper(log) && IsLoad(log, i) && IsLoad(log, j) && p < c < j && WrittenBy(log, i, p)
    requires Undoes(log, log[i].jti, c) && Untouched(log, log[i].jti, p, c) && log[j].at < log[i].until
    ensures UndoneUnseen(log, i, p, c)
  {
    assert EventOk(log, c);
    var l := Follows(log, c);
    assert EventOk(log, l);
    if p < l {
      StandingIsEntry(log, i, p, l);
    }
  }

  lemma {:induction false} FirstIn(log: seq<Event>, k: string, p: int, n: int) returns (c: int)
    requires !Untouched(log, k, p, n)
    ensures p < c < n && Undoes(log, k, c) && Untouched(log, k, p, c)
    decreases n - p
  {
    var d :| p < d < n && Undoes(log, k, d);
    if Untouched(log, k, p, d) {
      c := d;
    } else {
      c := FirstIn(log, k, p, d);
    }
  }

  /** While its lease runs, the entry of a call is gone if and only if the call has been overlapped. */
  lemma {:induction false} GoneIffOverlapped(log: seq<Event>, i: nat, j: nat)
    requires Proper(log) && IsLoad(log, i) && IsLoad(log, j) && i < j && log[j].at < log[i].until
    ensures !Stands(log, i, j) <==> Overlapped(log, i, j)
  {
    if Stands(log, i, j) {
      var p :| p < j && WrittenBy(log, i, p) && Untouched(log, log[i].jti, p, j);
      forall q, c | c < j ensures !UndoneUnseen(log, i, q, c) {
        if WrittenBy(log, i, q) {
          OneWrite(log, i, p, q);
        }
      }
    } else if !LoadsBeforeStore(log, i, j) {
      var p :| i <= p < j && WrittenBy(log, i, p);
      var c := FirstIn(log, log[i].jti, p, j);
      FirstUndoing(log, i, p, c, j);
    }
  }

  /**
   * Exactly when a call is let through, in every run: if and only if every lease for its jti that still runs
   * has been overlapped in one of those ways; with no such lease, always. (For a call that loads as it
   * reads its clock; PassesIff covers the others.)
   */
  lemma {:induction false} PassesIffOverlapped(log: seq<Event>, j: nat)
    requires Proper(log) && IsLoad(log, j) && log[j].now == log[j].at
    ensures Passes(log, j) <==> forall i :: 0 <= i && Claims(log, i, j) ==> Overlapped(log, i, j)
  {
    PassesIff(log, j);
    forall i | 0 <= i && Claims(log, i, j) ensures !Stands(log, i, j) <==> Overlapped(log, i, j) {
      GoneIffOverlapped(log, i, j);
    }
  }

  /** Two calls for one jti that are both let through: the later one loads after the earlier one's lease, or they overlap. */
  lemma {:induction false} SpacedUnlessOverlapped(log: seq<Event>, i: nat, j: nat)
    requires Proper(log) && Passes(log, i) && Passes(log, j) && i < j && log[i].jti == log[j].jti
    ensures log[j].at >= log[i].until || Overlapped(log, i, j)
  {
    assert EventOk(log, j);
    if log[j].at < log[i].until {
      PassesIff(log, j);
      assert Claims(log, i, j);
      GoneIffOverlapped(log, i, j);
    }
  }

  /** No call for this jti comes before call `i`. */
  predicate First(log: seq<Event>, i: int) {
    IsLoad(log, i) && forall m :: 0 <= m < i && log[m].Load? ==> log[m].jti != log[i].jti
  }

  lemma {:induction false} NoEntryBefore(log: seq<Event>, i: nat, n: nat)
    requires Proper(log) && First(log, i) && n <= i
    ensures Entry(log[..n], log[i].jti).None?
  {
    if Entry(log[..n], log[i].jti).Some? {
      var m, p := EntryHasWriter(log, log[i].jti, n);
    }
  }

  lemma {:induction false} NothingToUndo(log: seq<Event>, i: nat, c: nat)
    requires Proper(log) && First(log, i) && Undoes(log, log[i].jti, c)
    ensures Follows(log, c) >= i
  {
    var l := Follows(log, c);
    assert EventOk(log, c) && EventOk(log, l);
    if log[c].Delete? && l < i {
      NoEntryBefore(log, i, l);
    }
  }

  /** The first call for a jti is let through, and is never overlapped. */
  lemma {:induction false} FirstIsSafe(log: seq<Event>, i: nat, j: nat)
    requires Proper(log) && First(log, i) && i < j
    ensures Passes(log, i) && !Overlapped(log, i, j)
  {
    NoEntryBefore(log, i, i);
    assert WrittenBy(log, i, i);
    forall p, c | c < j ensures !UndoneUnseen(log, i, p, c) {
      if WrittenBy(log, i, p) && 0 <= c && Undoes(log, log[i].jti, c) {
        OneWrite(log, i, i, p);
        NothingToUndo(log, i, c);
      }
    }
  }

  // ----- the cache that these steps change

  datatype Cache = Cache(entries: map<string, int>, log: seq<Event>)

  const EMPTY := Cache(map[], [])

  datatype Answer = Used | Let | MustStore

  /** LoadOrStore, and the comparison with what it has loaded. */
  function DoLoad(c: Cache, jti: string, now: int, ttl: int, at: int): (Answer, Cache) {
    var log := c.log + [Load(jti, now, now + ttl, at)];
    if jti !in c.entries then (Let, Cache(c.entries[jti := now + ttl], log))
    else (if now < c.entries[jti] then Used else MustStore, Cache(c.entries, log))
  }

  /** The Store over an expired entry. */
  function DoStore(c: Cache, load: nat, at: int): Cache
    requires IsLoad(c.log, load)
  {
    Cache(c.entries[c.log[load].jti := c.log[load].until], c.log + [Store(load, at)])
  }

  /** A sweeper looks at an entry, and keeps it in mind if it has run out. */
  function DoLook(c: Cache, key: string, readAt: int, at: int): Cache {
    if key in c.entries && readAt > c.entries[key] then c.(log := c.log + [Look(key, readAt, at)]) else c
  }

  function DoDelete(c: Cache, look: nat, at: int): Cache {
    if look < |c.log| && c.log[look].Look? then Cache(c.entries - {c.log[look].key}, c.log + [Delete(look, at)]) else c
  }

  /** The map is what the log says, and the log is of steps that may have happened by `now`. */
  ghost predicate CacheOk(c: Cache, now: int) {
    && Proper(c.log) && (c.log != [] ==> c.log[|c.log| - 1].at <= now)
    && forall k :: Entry(c.log, k) == if k in c.entries then Some(c.entries[k]) else None
  }

  /** What a longer log says of its beginning. */
  lemma {:induction false} Extends(log: seq<Event>, log': seq<Event>)
    requires log <= log'
    ensures forall n :: 0 <= n <= |log| ==> log'[..n] == log[..n]
    ensures forall i :: 0 <= i < |log| ==>
      (Fresh(log', i) <==> Fresh(log, i)) && (Expired(log', i) <==> Expired(log, i)) && (Passes(log', i) <==> Passes(log, i))
  {
    assert forall n :: 0 <= n <= |log| ==> log'[..n] == log[..n];
  }

  lemma {:induction false} ProperAppend(log: seq<Event>, e: Event)
    requires Proper(log) && (log != [] ==> log[|log| - 1].at <= e.at) && EventOk(log + [e], |log|)
    ensures Proper(log + [e])
  {
    var all := log + [e];
    Extends(log, all);
    forall n | 0 <= n < |log| ensures EventOk(all, n) {
      assert EventOk(log, n);
      if log[n].Store? {
        forall m | log[n].load < m < n ensures !StoreOf(all, log[n].load, m) {
          assert !StoreOf(log, log[n].load, m);
        }
      }
    }
  }

  lemma {:induction false} EntryAppend(log: seq<Event>, e: Event, k: string)
    ensures var all := log + [e];
      Entry(all, k) ==
        match e
        case Load(jti, _, until, _) => if jti == k && Entry(log, k).None? then Some(until) else Entry(log, k)
        case Store(l, _) => if l < |log| && log[l].Load? && log[l].jti == k then Some(log[l].until) else Entry(log, k)
        case Delete(l, _) => if l < |log| && log[l].Look? && log[l].key == k then None else Entry(log, k)
        case Look(_, _, _) => Entry(log, k)
  {
    assert (log + [e])[..|log|] == log;
  }

  lemma {:induction false} LoadKeepsEntry(c: Cache, jti: string, now: int, ttl: int, at: int, k: string)
    requires Entry(c.log, k) == if k in c.entries then Some(c.entries[k]) else None
    requires Entry(c.log, jti) == if jti in c.entries then Some(c.entries[jti]) else None
    ensures var c' := DoLoad(c, jti, now, ttl, at).1;
      c'.log == c.log + [Load(jti, now, now + ttl, at)] && Entry(c'.log, k) == if k in c'.entries then Some(c'.entries[k]) else None
  {
    EntryAppend(c.log, Load(jti, now, now + ttl, at), k);
  }

  lemma {:induction false} LoadKeeps(c: Cache, jti: string, now: int, ttl: int, at: int)
    requires CacheOk(c, at) && now <= at
    ensures var (a, c') := DoLoad(c, jti, now, ttl, at); var i := |c.log|;
      && CacheOk(c', at) && c'.log == c.log + [Load(jti, now, now + ttl, at)]
      && (Fresh(c'.log, i) <==> a.Let?) && (Expired(c'.log, i) <==> a.MustStore?) && (Passes(c'.log, i) <==> !a.Used?)
  {
    var e := Load(jti, now, now + ttl, at);
    assert (c.log + [e])[..|c.log|] == c.log;
    ProperAppend(c.log, e);
    var c' := DoLoad(c, jti, now, ttl, at).1;
    forall k ensures Entry(c'.log, k) == if k in c'.entries then Some(c'.entries[k]) else None {
      LoadKeepsEntry(c, jti, now, ttl, at, k);
    }
  }

  /** A call that has found an expired entry and not yet stored over it. */
  predicate Waits(c: Cache, load: int) {
    Expired(c.log, load) && forall m :: load < m < |c.log| ==> !StoreOf(c.log, load, m)
  }

  lemma {:induction false} StoreKeeps(c: Cache, load: nat, at: int)
    requires CacheOk(c, at) && Waits(c, load)
    ensures CacheOk(DoStore(c, load, at), at) && DoStore(c, load, at).log == c.log + [Store(load, at)]
  {
    var e := Store(load, at);
    Extends(c.log, c.log + [e]);
    forall m | load < m < |c.log| ensures !StoreOf(c.log + [e], load, m) {
      assert !StoreOf(c.log, load, m);
    }
    ProperAppend(c.log, e);
    forall k ensures Entry(c.log + [e], k)
      == if k in DoStore(c, load, at).entries then Some(DoStore(c, load, at).entries[k]) else None
    {
      EntryAppend(c.log, e, k);
    }
  }

  lemma {:induction false} LookKeeps(c: Cache, key: string, readAt: int, at: int)
    requires CacheOk(c, at) && readAt <= at
    ensures CacheOk(DoLook(c, key, readAt, at), at) && c.log <= DoLook(c, key, readAt, at).log
    ensures forall n :: |c.log| <= n < |DoLook(c, key, readAt, at).log| ==> DoLook(c, key, readAt, at).log[n].Look?
  {
    if key in c.entries && readAt > c.entries[key] {
      var e := Look(key, readAt, at);
      assert (c.log + [e])[..|c.log|] == c.log;
      ProperAppend(c.log, e);
      forall k ensures Entry(c.log + [e], k) == Entry(c.log, k) {
        EntryAppend(c.log, e, k);
      }
    }
  }

  lemma {:induction false} DeleteKeeps(c: Cache, look: nat, at: int)
    requires CacheOk(c, at)
    ensures CacheOk(DoDelete(c, look, at), at) && c.log <= DoDelete(c, look, at).log
    ensures forall n :: |c.log| <= n < |DoDelete(c, look, at).log| ==> DoDelete(c, look, at).log[n].Delete?
  {
    if look < |c.log| && c.log[look].Look? {
      var e := Delete(look, at);
      ProperAppend(c.log, e);
      forall k ensures Entry(c.log + [e], k)
        == if k in DoDelete(c, look, at).entries then Some(DoDelete(c, look, at).entries[k]) else None
      {
        EntryAppend(c.log, e, k);
      }
    }
  }

  /** A call that nothing interrupts, with the clock standing, is IsJtiUsedAndSave of the stores. */
  lemma {:induction false} UninterruptedCall(c: Cache, jti: string, ttl: int, now: int)
    ensures var (a, c') := DoLoad(c, jti, now, ttl, now);
      (a.Used?, (if a.MustStore? then DoStore(c', |c.log|, now) else c').entries) == TtlStore.CheckAndSave(c.entries, jti, ttl, now)
  {
  }
}
