/**
 * Proofs at the gateway with every step apart: any number of requests check the window of their proof, load
 * and store in the replay cache, while any number of sweepers look and delete, and the clock moves on.
 */
module ReplayRace {
  import opened Common
  import opened ReplayCache
  import opened DpopProof

  /** How far a request has come: when it checked its window, and which event of the cache its load was. */
  datatype Progress =
    | Arrived
    | InTime(window: int)
    | Storing(window: int, load: nat)
    | Done(window: int, load: nat, used: bool)

  /** `iat` is in nanoseconds here. */
  datatype Request = Request(jti: string, iat: int, pc: Progress)

  datatype State = State(clock: int, cache: Cache, requests: seq<Request>)

  datatype Action =
    | Tick(delta: nat)
    | CheckWindow(i: nat)
    | LoadOrStore(i: nat, readAt: int)
    | StoreAgain(i: nat)
    | SweeperLooks(key: string, readAt: int)
    | SweeperDeletes(look: nat)

  function Advance(s: State, i: nat, pc: Progress): State
    requires i < |s.requests|
  {
    s.(requests := s.requests[i := s.requests[i].(pc := pc)])
  }

  predicate Within(iat: int, t: int) {
    -WINDOW <= t - iat <= WINDOW
  }

  /** The clock was read at some time since the window check. */
  function LoadStep(s: State, i: nat, readAt: int): State
    requires i < |s.requests| && s.requests[i].pc.InTime?
  {
    var r := s.requests[i];
    var (a, cache) := DoLoad(s.cache, r.jti, readAt, JTI_TTL, s.clock);
    var load := |s.cache.log|;
    Advance(s, i, if a.MustStore? then Storing(r.pc.window, load) else Done(r.pc.window, load, a.Used?)).(cache := cache)
  }

  /** One step; a step that cannot happen changes nothing. */
  function Next(s: State, a: Action): State {
    match a
    case Tick(delta) => s.(clock := s.clock + delta)
    case CheckWindow(i) =>
      if i < |s.requests| && s.requests[i].pc.Arrived? && Within(s.requests[i].iat, s.clock) then Advance(s, i, InTime(s.clock)) else s
    case LoadOrStore(i, readAt) =>
      if i < |s.requests| && s.requests[i].pc.InTime? && s.requests[i].pc.window <= readAt <= s.clock then LoadStep(s, i, readAt) else s
    case StoreAgain(i) =>
      if i < |s.requests| && s.requests[i].pc.Storing? && IsLoad(s.cache.log, s.requests[i].pc.load) then
        var pc := s.requests[i].pc;
        Advance(s, i, Done(pc.window, pc.load, false)).(cache := DoStore(s.cache, pc.load, s.clock))
      else s
    case SweeperLooks(key, readAt) => if readAt <= s.clock then s.(cache := DoLook(s.cache, key, readAt, s.clock)) else s
    case SweeperDeletes(look) => s.(cache := DoDelete(s.cache, look, s.clock))
  }

  function Run(s: State, actions: seq<Action>): State {
    if actions == [] then s else Next(Run(s, actions[..|actions| - 1]), actions[|actions| - 1])
  }

  /** Nothing has happened yet and no jti has been seen. */
  predicate Initial(s: State) {
    s.cache == EMPTY && forall r :: r in s.requests ==> r.pc.Arrived?
  }

  // ----- what every step keeps

  predicate HasLoaded(r: Request) {
    r.pc.Storing? || r.pc.Done?
  }

  /** The request's load is the event it says, and it has been let through exactly when that event passes. */
  predicate LoadedAs(c: Cache, r: Request) {
    HasLoaded(r) ==>
      && IsLoad(c.log, r.pc.load) && Within(r.iat, r.pc.window)
      && var e := c.log[r.pc.load];
         && e.jti == r.jti && e.until == e.now + JTI_TTL && r.pc.window <= e.now <= e.at
         && (r.pc.Storing? ==> Waits(c, r.pc.load))
         && (r.pc.Done? ==> (Passes(c.log, r.pc.load) <==> !r.pc.used))
  }

  ghost predicate Inv(s: State) {
    && CacheOk(s.cache, s.clock)
    && (forall i :: 0 <= i < |s.requests| ==>
          LoadedAs(s.cache, s.requests[i]) && (s.requests[i].pc.InTime? ==> Within(s.requests[i].iat, s.requests[i].pc.window) && s.requests[i].pc.window <= s.clock))
    && (forall i, j :: 0 <= i < j < |s.requests| && HasLoaded(s.requests[i]) && HasLoaded(s.requests[j]) ==> s.requests[i].pc.load != s.requests[j].pc.load)
    && (forall l :: IsLoad(s.cache.log, l) ==> exists i :: Loaded(s, i, l))
  }

  predicate Loaded(s: State, i: int, l: int) {
    0 <= i < |s.requests| && HasLoaded(s.requests[i]) && s.requests[i].pc.load == l
  }

  /** A request's load means the same in a cache whose log has grown, unless its own store has come. */
  lemma {:induction false} StillLoaded(c: Cache, c': Cache, r: Request)
    requires LoadedAs(c, r) && c.log <= c'.log
    requires forall m :: |c.log| <= m < |c'.log| && r.pc.Storing? ==> !StoreOf(c'.log, r.pc.load, m)
    ensures LoadedAs(c', r)
  {
    Extends(c.log, c'.log);
    if r.pc.Storing? {
      forall m | r.pc.load < m < |c'.log| ensures !StoreOf(c'.log, r.pc.load, m) {
        if m < |c.log| {
          assert !StoreOf(c.log, r.pc.load, m);
        }
      }
    }
  }

  lemma {:induction false} LoadInv(s: State, i: nat, readAt: int)
    requires Inv(s) && i < |s.requests| && s.requests[i].pc.InTime? && s.requests[i].pc.window <= readAt <= s.clock
    ensures Inv(LoadStep(s, i, readAt))
  {
    var s', l := LoadStep(s, i, readAt), |s.cache.log|;
    LoadKeeps(s.cache, s.requests[i].jti, readAt, JTI_TTL, s.clock);
    forall j | 0 <= j < |s.requests| && j != i ensures LoadedAs(s'.cache, s'.requests[j]) {
      StillLoaded(s.cache, s'.cache, s.requests[j]);
    }
    assert Loaded(s', i, l);
    forall m | IsLoad(s'.cache.log, m) && m < l ensures exists j :: Loaded(s', j, m) {
      assert IsLoad(s.cache.log, m);
      var j :| Loaded(s, j, m);
      assert Loaded(s', j, m);
    }
  }

  lemma {:induction false} StoreInv(s: State, i: nat)
    requires Inv(s) && i < |s.requests| && s.requests[i].pc.Storing?
    ensures Inv(Next(s, StoreAgain(i)))
  {
    var s' := Next(s, StoreAgain(i));
    assert LoadedAs(s.cache, s.requests[i]);
    StoreKeeps(s.cache, s.requests[i].pc.load, s.clock);
    Extends(s.cache.log, s'.cache.log);
    forall j | 0 <= j < |s.requests| && j != i ensures LoadedAs(s'.cache, s'.requests[j]) {
      StillLoaded(s.cache, s'.cache, s.requests[j]);
    }
    forall m | IsLoad(s'.cache.log, m) ensures exists j :: Loaded(s', j, m) {
      assert IsLoad(s.cache.log, m);
      var j :| Loaded(s, j, m);
      assert Loaded(s', j, m);
    }
  }

  /** Sweepers, window checks and the clock. */
  lemma {:induction false} OtherInv(s: State, s': State)
    requires Inv(s) && CacheOk(s'.cache, s'.clock) && s.clock <= s'.clock && s.cache.log <= s'.cache.log
    requires forall n :: |s.cache.log| <= n < |s'.cache.log| ==> s'.cache.log[n].Look? || s'.cache.log[n].Delete?
    requires |s'.requests| == |s.requests|
    requires forall i :: 0 <= i < |s.requests| ==>
      s'.requests[i] == s.requests[i]
      || (s.requests[i].pc.Arrived? && s'.requests[i].pc == InTime(s.clock) && Within(s'.requests[i].iat, s.clock))
    ensures Inv(s')
  {
    forall j | 0 <= j < |s.requests| ensures LoadedAs(s'.cache, s'.requests[j]) {
      StillLoaded(s.cache, s'.cache, s.requests[j]);
    }
    forall m | IsLoad(s'.cache.log, m) ensures exists j :: Loaded(s', j, m) {
      assert IsLoad(s.cache.log, m);
      var j :| Loaded(s, j, m);
      assert Loaded(s', j, m);
    }
  }

  lemma {:induction false} InvStep(s: State, a: Action)
    requires Inv(s)
    ensures Inv(Next(s, a))
  {
    match a
    case LoadOrStore(i, readAt) =>
      if i < |s.requests| && s.requests[i].pc.InTime? && s.requests[i].pc.window <= readAt <= s.clock {
        LoadInv(s, i, readAt);
      }
    case StoreAgain(i) =>
      if i < |s.requests| && s.requests[i].pc.Storing? {
        StoreInv(s, i);
      }
    case SweeperLooks(key, readAt) =>
      if readAt <= s.clock {
        LookKeeps(s.cache, key, readAt, s.clock);
        OtherInv(s, Next(s, a));
      }
    case SweeperDeletes(look) =>
      DeleteKeeps(s.cache, look, s.clock);
      OtherInv(s, Next(s, a));
    case _ => OtherInv(s, Next(s, a));
  }

  lemma {:induction false} InvRun(s: State, actions: seq<Action>)
    requires Initial(s)
    ensures Inv(Run(s, actions))
  {
    if actions != [] {
      InvRun(s, actions[..|actions| - 1]);
      InvStep(Run(s, actions[..|actions| - 1]), actions[|actions| - 1]);
    }
  }

  // ----- what follows

  /** Request `i` was let through, whether or not it has stored yet. */
  predicate LetThrough(s: State, i: int) {
    0 <= i < |s.requests| && HasLoaded(s.requests[i]) && (s.requests[i].pc.Done? ==> !s.requests[i].pc.used)
  }

  function LoadOf(s: State, i: int): nat
    requires 0 <= i < |s.requests| && HasLoaded(s.requests[i])
  {
    s.requests[i].pc.load
  }

  lemma {:induction false} LetThroughPasses(s: State, i: nat)
    requires Inv(s) && i < |s.requests| && HasLoaded(s.requests[i])
    ensures IsLoad(s.cache.log, LoadOf(s, i)) && (LetThrough(s, i) <==> Passes(s.cache.log, LoadOf(s, i)))
  {
    assert LoadedAs(s.cache, s.requests[i]);
  }

  /** In every run a request is let through if and only if no claim on its jti stands when it loads. */
  lemma {:induction false} LetThroughIff(s: State, actions: seq<Action>, i: nat)
    requires Initial(s)
    requires var e := Run(s, actions); i < |e.requests| && HasLoaded(e.requests[i])
    ensures var e := Run(s, actions); var log, j := e.cache.log, LoadOf(e, i);
      && Proper(log) && IsLoad(log, j)
      && (LetThrough(e, i) <==> forall m :: 0 <= m && Claims(log, m, j) ==> !Stands(log, m, j))
      && (log[j].now == log[j].at ==> (LetThrough(e, i) <==> forall m :: 0 <= m && Claims(log, m, j) ==> Overlapped(log, m, j)))
  {
    InvRun(s, actions);
    var e := Run(s, actions);
    LetThroughPasses(e, i);
    PassesIff(e.cache.log, LoadOf(e, i));
    if e.cache.log[LoadOf(e, i)].now == e.cache.log[LoadOf(e, i)].at {
      PassesIffOverlapped(e.cache.log, LoadOf(e, i));
    }
  }

  /** The request presented `jti` and ran its LoadOrStore before `t`. */
  predicate LoadedBefore(s: State, i: int, jti: string, t: int) {
    0 <= i < |s.requests| && s.requests[i].jti == jti && HasLoaded(s.requests[i]) && IsLoad(s.cache.log, LoadOf(s, i))
    && s.cache.log[LoadOf(s, i)].at < t
  }

  /**
   * In every interleaving, of all the calls for one jti whose LoadOrStore ran before the first one's entry ran
   * out exactly one was let through: the first.
   */
  lemma {:induction false} ExactlyOneBeforeExpiry(s: State, actions: seq<Action>, jti: string, f: nat)
    requires Initial(s)
    requires var e := Run(s, actions); f < |e.requests| && e.requests[f].jti == jti && HasLoaded(e.requests[f])
    requires var e := Run(s, actions); First(e.cache.log, LoadOf(e, f))
    ensures var e := Run(s, actions);
      forall i :: LoadedBefore(e, i, jti, e.cache.log[LoadOf(e, f)].until) ==> (LetThrough(e, i) <==> i == f)
  {
    InvRun(s, actions);
    var e := Run(s, actions);
    var log, l := e.cache.log, LoadOf(e, f);
    LetThroughPasses(e, f);
    assert LoadedAs(e.cache, e.requests[f]);
    FirstIsSafe(log, l, |log|);
    forall i | LoadedBefore(e, i, jti, log[l].until) && i != f ensures !LetThrough(e, i) {
      LetThroughPasses(e, i);
      assert LoadedAs(e.cache, e.requests[i]);
      if LetThrough(e, i) {
        SpacedUnlessOverlapped(log, l, LoadOf(e, i));
        FirstIsSafe(log, l, LoadOf(e, i));
      }
    }
  }

  /** Two requests presented one proof, both were let through, and the first loaded before the second. */
  predicate BothLetThrough(s: State, i: int, j: int) {
    && LetThrough(s, i) && LetThrough(s, j) && LoadOf(s, i) < LoadOf(s, j) && IsLoad(s.cache.log, LoadOf(s, i)) && IsLoad(s.cache.log, LoadOf(s, j))
    && s.requests[i].jti == s.requests[j].jti && s.requests[i].iat == s.requests[j].iat
  }

  /** How long request `i` took from its window check to its load. */
  function Delay(s: State, i: int): int
    requires 0 <= i < |s.requests| && HasLoaded(s.requests[i]) && IsLoad(s.cache.log, LoadOf(s, i))
  {
    s.cache.log[LoadOf(s, i)].at - s.requests[i].pc.window
  }

  /**
   * If a proof is let through twice, then either the first of the two was overlapped, or it read its clock
   * no later than the second one's delay after the proof's window opened, and the second loaded no earlier
   * than the window closed. The first call ever made for the jti is never overlapped.
   */
  lemma {:induction false} SecondAcceptanceBound(s: State, actions: seq<Action>, i: nat, j: nat)
    requires Initial(s) && BothLetThrough(Run(s, actions), i, j)
    ensures var e := Run(s, actions); var log, l, m := e.cache.log, LoadOf(e, i), LoadOf(e, j); var iat := e.requests[i].iat;
      && (Overlapped(log, l, m) || (log[l].now <= iat - 60 * SECOND + Delay(e, j) && log[m].at >= iat + 60 * SECOND))
      && (First(log, l) ==> !Overlapped(log, l, m))
  {
    InvRun(s, actions);
    var e := Run(s, actions);
    var log, l, m := e.cache.log, LoadOf(e, i), LoadOf(e, j);
    LetThroughPasses(e, i);
    LetThroughPasses(e, j);
    assert LoadedAs(e.cache, e.requests[i]) && LoadedAs(e.cache, e.requests[j]);
    SpacedUnlessOverlapped(log, l, m);
    if First(log, l) {
      FirstIsSafe(log, l, m);
    }
  }

  /** Without delay and without overlap: only at the very first and the very last moment of the window. */
  lemma {:induction false} SecondAcceptanceWithoutDelay(s: State, actions: seq<Action>, i: nat, j: nat)
    requires Initial(s) && BothLetThrough(Run(s, actions), i, j) && Delay(Run(s, actions), j) == 0
    ensures var e := Run(s, actions); var log, l, m := e.cache.log, LoadOf(e, i), LoadOf(e, j); var iat := e.requests[i].iat;
      Overlapped(log, l, m) || (log[l].now == iat - 60 * SECOND && log[m].at == iat + 60 * SECOND)
  {
    SecondAcceptanceBound(s, actions, i, j);
    InvRun(s, actions);
    var e := Run(s, actions);
    assert LoadedAs(e.cache, e.requests[i]) && LoadedAs(e.cache, e.requests[j]);
  }

  // ----- runs in which it happens

  lemma {:induction false} RunSnoc(s: State, actions: seq<Action>, a: Action)
    ensures Run(s, actions + [a]) == Next(Run(s, actions), a)
  {
    assert (actions + [a])[..|actions|] == actions;
  }

  lemma {:induction false} FirstAtOpening(jti: string, iat: int) returns (s: State, actions: seq<Action>)
    ensures Initial(s)
    ensures Run(s, actions)
         == State(iat - WINDOW, Cache(map[jti := iat - WINDOW + JTI_TTL], [Load(jti, iat - WINDOW, iat - WINDOW + JTI_TTL, iat - WINDOW)]),
                  [Request(jti, iat, Done(iat - WINDOW, 0, false)), Request(jti, iat, Arrived)])
  {
    var early := iat - WINDOW;
    s := State(early, EMPTY, [Request(jti, iat, Arrived), Request(jti, iat, Arrived)]);
    RunSnoc(s, [], CheckWindow(0));
    RunSnoc(s, [CheckWindow(0)], LoadOrStore(0, early));
    actions := [CheckWindow(0)] + [LoadOrStore(0, early)];
    assert [] + [CheckWindow(0)] == [CheckWindow(0)];
  }

  /** The bound is attained: saved at iat - 60 s, the same proof passes again at iat + 60 s. */
  lemma {:induction false} SecondAcceptanceAtTheEnds(jti: string, iat: int) returns (s: State, actions: seq<Action>)
    ensures Initial(s) && BothLetThrough(Run(s, actions), 0, 1)
    ensures var e := Run(s, actions); e.cache.log[LoadOf(e, 0)].at == iat - 60 * SECOND && e.cache.log[LoadOf(e, 1)].at == iat + 60 * SECOND
  {
    s, actions := FirstAtOpening(jti, iat);
    RunSnoc(s, actions, Tick(JTI_TTL));
    RunSnoc(s, actions + [Tick(JTI_TTL)], CheckWindow(1));
    RunSnoc(s, actions + [Tick(JTI_TTL)] + [CheckWindow(1)], LoadOrStore(1, iat + WINDOW));
    actions := actions + [Tick(JTI_TTL)] + [CheckWindow(1)] + [LoadOrStore(1, iat + WINDOW)];
  }

  /** The state in which one request has passed at time 0 and two others, with one proof of their own, are in time. */
  function AfterFirst(jti: string, t: int): State {
    State(t, Cache(map[jti := JTI_TTL], [Load(jti, 0, JTI_TTL, 0)]),
          [Request(jti, 0, Done(0, 0, false)), Request(jti, t, InTime(t)), Request(jti, t, InTime(t))])
  }

  lemma {:induction false} ReachAfterFirst(jti: string, t: nat) returns (s: State, actions: seq<Action>)
    ensures Initial(s) && Run(s, actions) == AfterFirst(jti, t)
  {
    var a, b := Request(jti, 0, Arrived), Request(jti, t, Arrived);
    s := State(0, EMPTY, [a, b, b]);
    RunSnoc(s, [], CheckWindow(0));
    RunSnoc(s, [CheckWindow(0)], LoadOrStore(0, 0));
    actions := [CheckWindow(0)] + [LoadOrStore(0, 0)];
    assert [] + [CheckWindow(0)] == [CheckWindow(0)];
    RunSnoc(s, actions, Tick(t));
    RunSnoc(s, actions + [Tick(t)], CheckWindow(1));
    RunSnoc(s, actions + [Tick(t)] + [CheckWindow(1)], CheckWindow(2));
    actions := actions + [Tick(t)] + [CheckWindow(1)] + [CheckWindow(2)];
  }

  /** Two loads of an expired entry before either stores: one proof passes twice at one instant, amid its window. */
  lemma {:induction false} OverlappingLoadsBothPass(jti: string) returns (s: State, actions: seq<Action>)
    ensures Initial(s) && BothLetThrough(Run(s, actions), 1, 2)
    ensures var e := Run(s, actions);
      e.cache.log[LoadOf(e, 1)].at == e.cache.log[LoadOf(e, 2)].at == e.requests[1].iat && Delay(e, 1) == 0 && Delay(e, 2) == 0
  {
    s, actions := ReachAfterFirst(jti, JTI_TTL);
    RunSnoc(s, actions, LoadOrStore(1, JTI_TTL));
    RunSnoc(s, actions + [LoadOrStore(1, JTI_TTL)], LoadOrStore(2, JTI_TTL));
    actions := actions + [LoadOrStore(1, JTI_TTL)] + [LoadOrStore(2, JTI_TTL)];
  }

  /** The same, once a sweeper has looked, request 1 has stored, and the sweeper has deleted. */
  function AfterDelete(jti: string, t: int): State {
    State(t, Cache(map[], [Load(jti, 0, JTI_TTL, 0), Look(jti, t, t), Load(jti, t, t + JTI_TTL, t), Store(2, t), Delete(1, t)]),
          [Request(jti, 0, Done(0, 0, false)), Request(jti, t, Done(t, 2, false)), Request(jti, t, InTime(t))])
  }

  lemma {:induction false} ReachAfterDelete(jti: string, t: nat) returns (s: State, actions: seq<Action>)
    requires t > JTI_TTL
    ensures Initial(s) && Run(s, actions) == AfterDelete(jti, t)
  {
    s, actions := ReachAfterFirst(jti, t);
    RunSnoc(s, actions, SweeperLooks(jti, t));
    RunSnoc(s, actions + [SweeperLooks(jti, t)], LoadOrStore(1, t));
    actions := actions + [SweeperLooks(jti, t)] + [LoadOrStore(1, t)];
    assert Run(s, actions).cache == Cache(map[jti := JTI_TTL], [Load(jti, 0, JTI_TTL, 0), Look(jti, t, t), Load(jti, t, t + JTI_TTL, t)]);
    RunSnoc(s, actions, StoreAgain(1));
    RunSnoc(s, actions + [StoreAgain(1)], SweeperDeletes(1));
    actions := actions + [StoreAgain(1)] + [SweeperDeletes(1)];
  }

  /** A sweeper that looked before a store deletes what was stored: the proof passes again a second later. */
  lemma {:induction false} SweeperErasesLease(jti: string) returns (s: State, actions: seq<Action>)
    ensures Initial(s) && BothLetThrough(Run(s, actions), 1, 2)
    ensures var e := Run(s, actions);
      e.requests[1].pc.Done? && e.cache.log[LoadOf(e, 2)].at == e.cache.log[LoadOf(e, 1)].at + SECOND
  {
    var t := JTI_TTL + SECOND;
    s, actions := ReachAfterDelete(jti, t);
    RunSnoc(s, actions, Tick(SECOND));
    RunSnoc(s, actions + [Tick(SECOND)], LoadOrStore(2, t + SECOND));
    actions := actions + [Tick(SECOND)] + [LoadOrStore(2, t + SECOND)];
  }
}
