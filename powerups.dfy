/**
 * Power-ups of the newer game: `ReduceTimePowerUp` (Zapoctak.Net1/PowerUp.cs)
 * and the two plugins `ExtendSafeZone` and `TemporaryDestroy` (Powerups/).
 *
 * A hook receives the level and changes it in place. Here the part of the
 * level a hook can reach is the value `Scene`; every hook is a function from
 * the scene before the call to the scene after it, and the imperative
 * `Levels` module applies these to the live level. The `TimeKeeper` handlers
 * that `TemporaryDestroy` subscribes to the form's timer are kept as the
 * level-owned list `pending`.
 */
module PowerUps {
  import opened Wrappers
  import opened Bodies
  import Int32

  /** The `PowerUpId` of each parser, the key of the plugin registry. */
  const ReduceTimeId: string := "ReduceTime"
  const ExtendSafeZoneId: string := "ExtendSafeZone"
  const TempDestroyId: string := "TempDestroy"

  /** The concrete power-up classes, with the number each one was parsed with. */
  datatype Effect =
    | ReduceTime(reduceAmount: int)
    | ExtendSafeZone(extensionFactor: real)
    | TemporaryDestroy(destructionTime: int)

  datatype PowerUp = PowerUp(body: Body, effect: Effect)

  /** The `IPowerUpParser` implementations. */
  datatype Parser = ReduceTimeParser | ExtendSafeZoneParser | TemporaryDestroyParser

  function PowerUpId(p: Parser): string {
    match p
    case ReduceTimeParser => ReduceTimeId
    case ExtendSafeZoneParser => ExtendSafeZoneId
    case TemporaryDestroyParser => TempDestroyId
  }

  /** Each parser announces its own id, so the registry can hold all three. */
  lemma PowerUpIdsDistinct(p: Parser, q: Parser)
    ensures PowerUpId(p) == PowerUpId(q) <==> p == q
  {
  }

  /** A space object a `TimeKeeper` will resurrect, by list and index. */
  datatype Target = SunTarget(index: nat) | PlanetTarget(index: nat) | PowerUpTarget(index: nat)

  /** `TemporaryDestroy.TimeKeeper`: its target, start and deadline in milliseconds. */
  datatype Keeper = Keeper(target: Target, startTimeMs: int, endTimeMs: int)

  /**
   * The level state the hooks and the physics engine read and write: the three
   * lists, the time limit, the engine's safe distance and the pending keepers.
   */
  datatype Scene = Scene(suns: seq<Sun>, planets: seq<Planet>, powerUps: seq<PowerUp>,
                         timeLimit: int, maxSafeDistance: real, pending: seq<Keeper>)

  function PowerUpBodies(powerUps: seq<PowerUp>): (r: seq<Body>)
    ensures |r| == |powerUps| && forall k :: 0 <= k < |powerUps| ==> r[k] == powerUps[k].body
  {
    seq(|powerUps|, k requires 0 <= k < |powerUps| => powerUps[k].body)
  }

  /** The lists keep their lengths: nothing is added or removed during a tick. */
  predicate SameShape(s: Scene, r: Scene) {
    |r.suns| == |s.suns| && |r.planets| == |s.planets| && |r.powerUps| == |s.powerUps|
  }

  /** `b` is `a` with at most its destroyed flag set. */
  predicate LaterBody(a: Body, b: Body) {
    b == a.(isDestroyed := b.isDestroyed) && (a.isDestroyed ==> b.isDestroyed)
  }

  /** Sun `k` of `r` is sun `k` of `s`, with at most its destroyed flag set. */
  predicate SunLater(s: Scene, r: Scene, k: int) {
    0 <= k < |s.suns| && k < |r.suns|
    && r.suns[k] == s.suns[k].(body := r.suns[k].body) && LaterBody(s.suns[k].body, r.suns[k].body)
  }

  /** Planet `k` of `r` is planet `k` of `s`, with at most its destroyed flag set. */
  predicate PlanetLater(s: Scene, r: Scene, k: int) {
    0 <= k < |s.planets| && k < |r.planets|
    && r.planets[k] == s.planets[k].(body := r.planets[k].body) && LaterBody(s.planets[k].body, r.planets[k].body)
  }

  /** Power-up `k` of `r` is power-up `k` of `s`, with at most its destroyed flag set. */
  predicate PowerUpLater(s: Scene, r: Scene, k: int) {
    0 <= k < |s.powerUps| && k < |r.powerUps|
    && r.powerUps[k] == s.powerUps[k].(body := r.powerUps[k].body) && LaterBody(s.powerUps[k].body, r.powerUps[k].body)
  }

  /**
   * Between `s` and `r` every body kept its place, data and motion, no
   * destroyed flag was cleared, and keepers were only added.
   */
  predicate OnlyDestroys(s: Scene, r: Scene) {
    SameShape(s, r) && s.pending <= r.pending
    && (forall k :: 0 <= k < |s.suns| ==> SunLater(s, r, k))
    && (forall k :: 0 <= k < |s.planets| ==> PlanetLater(s, r, k))
    && (forall k :: 0 <= k < |s.powerUps| ==> PowerUpLater(s, r, k))
  }

  lemma OnlyDestroysTransitive(s: Scene, m: Scene, r: Scene)
    requires OnlyDestroys(s, m) && OnlyDestroys(m, r)
    ensures OnlyDestroys(s, r)
  {
    forall k | 0 <= k < |s.suns|
      ensures SunLater(s, r, k)
    {
      assert SunLater(s, m, k) && SunLater(m, r, k);
    }
    forall k | 0 <= k < |s.planets|
      ensures PlanetLater(s, r, k)
    {
      assert PlanetLater(s, m, k) && PlanetLater(m, r, k);
    }
    forall k | 0 <= k < |s.powerUps|
      ensures PowerUpLater(s, r, k)
    {
      assert PowerUpLater(s, m, k) && PowerUpLater(m, r, k);
    }
  }

  /** The `Level.TimeLimit` setter stores `Math.Max(0, value)`. */
  function ClampTimeLimit(value: int): (r: int)
    ensures r >= 0
    ensures value >= 0 ==> r == value
    ensures value < 0 ==> r == 0
  {
    if value < 0 then 0 else value
  }

  function SetTimeLimit(s: Scene, value: int): Scene {
    s.(timeLimit := ClampTimeLimit(value))
  }

  /** `(int)Math.Ceiling(1.5 * n)`, the least integer not below three halves of `n`. */
  function CeilThreeHalves(n: int): (r: int)
    ensures 2 * r - 1 <= 3 * n <= 2 * r
  {
    (3 * n + 1) / 2
  }

  /**
   * `(int)Math.Ceiling(1.5 * n)` for an `int` n: the exact ceiling while it
   * fits in an `int`, which is exactly for -1431655765 <= n <= 1431655764.
   */
  function CeilThreeHalvesToInt(n: int): (r: int)
    ensures Int32.InRange(r)
    ensures -1431655765 <= n <= 1431655764 <==> Int32.InRange(CeilThreeHalves(n))
    ensures -1431655765 <= n <= 1431655764 ==> r == CeilThreeHalves(n)
    ensures !(-1431655765 <= n <= 1431655764) ==> r == Int32.MinValue
  {
    Int32.CastToInt(CeilThreeHalves(n))
  }

  /** The keeper `TemporaryDestroy` creates at `nowMs` for a duration. */
  function NewKeeper(target: Target, nowMs: int, duration: int): (k: Keeper)
    ensures k.endTimeMs - k.startTimeMs == duration && k.startTimeMs == nowMs
  {
    Keeper(target, nowMs, nowMs + duration)
  }

  /** `IsDestroyed = true` on the target: unguarded for a sun, the guarded setter otherwise. */
  function Destroy(s: Scene, t: Target): Scene {
    match t
    case SunTarget(k) =>
      if k < |s.suns| then s.(suns := s.suns[k := s.suns[k].(body := s.suns[k].body.(isDestroyed := true))]) else s
    case PlanetTarget(k) =>
      if k < |s.planets| then s.(planets := s.planets[k := s.planets[k].(body := SetDestroyed(s.planets[k].body, true))]) else s
    case PowerUpTarget(k) =>
      if k < |s.powerUps| then s.(powerUps := s.powerUps[k := s.powerUps[k].(body := SetDestroyed(s.powerUps[k].body, true))]) else s
  }

  /** `IsDestroyed = false` on the target, which every setter stores. */
  function Revive(s: Scene, t: Target): Scene {
    match t
    case SunTarget(k) =>
      if k < |s.suns| then s.(suns := s.suns[k := s.suns[k].(body := s.suns[k].body.(isDestroyed := false))]) else s
    case PlanetTarget(k) =>
      if k < |s.planets| then s.(planets := s.planets[k := s.planets[k].(body := SetDestroyed(s.planets[k].body, false))]) else s
    case PowerUpTarget(k) =>
      if k < |s.powerUps| then s.(powerUps := s.powerUps[k := s.powerUps[k].(body := SetDestroyed(s.powerUps[k].body, false))]) else s
  }

  /** The target's current destroyed flag. */
  predicate IsDestroyed(s: Scene, t: Target) {
    match t
    case SunTarget(k) => k < |s.suns| && s.suns[k].body.isDestroyed
    case PlanetTarget(k) => k < |s.planets| && s.planets[k].body.isDestroyed
    case PowerUpTarget(k) => k < |s.powerUps| && s.powerUps[k].body.isDestroyed
  }

  /** `TemporaryDestroy`'s three collision hooks: destroy the target and subscribe one keeper. */
  function DestroyForAWhile(s: Scene, t: Target, nowMs: int, duration: int): (r: Scene)
    ensures OnlyDestroys(s, r)
    ensures r.pending == s.pending + [NewKeeper(t, nowMs, duration)]
    ensures r.timeLimit == s.timeLimit && r.maxSafeDistance == s.maxSafeDistance
  {
    Destroy(s, t).(pending := s.pending + [NewKeeper(t, nowMs, duration)])
  }

  /** `ApplyPlanet(level, planets[k])` of a power-up with effect `e`. */
  function ApplyPlanet(s: Scene, e: Effect, k: nat, nowMs: int): (r: Scene)
    requires k < |s.planets|
    ensures OnlyDestroys(s, r)
  {
    match e
    case ReduceTime(amount) =>
      if s.planets[k].kind == Good then SetTimeLimit(s, Int32.Wrap(s.timeLimit - amount))
      else if s.planets[k].kind == Bad then SetTimeLimit(s, Int32.Wrap(s.timeLimit + amount))
      else s
    case ExtendSafeZone(factor) => s.(maxSafeDistance := s.maxSafeDistance * factor)
    case TemporaryDestroy(duration) => DestroyForAWhile(s, PlanetTarget(k), nowMs, duration)
  }

  /** `ApplySun(level, suns[k])` of a power-up with effect `e`. */
  function ApplySun(s: Scene, e: Effect, k: nat, nowMs: int): (r: Scene)
    requires k < |s.suns|
    ensures OnlyDestroys(s, r)
  {
    match e
    case ReduceTime(amount) => SetTimeLimit(s, Int32.Wrap(s.timeLimit - amount))
    case ExtendSafeZone(factor) => s.(maxSafeDistance := s.maxSafeDistance * factor)
    case TemporaryDestroy(duration) => DestroyForAWhile(s, SunTarget(k), nowMs, duration)
  }

  /**
   * `ApplyPowerup(level, powerUps[j])` of a power-up with effect `e`; the
   * `GetType()` tests compare the other power-up's variant.
   */
  function ApplyPowerup(s: Scene, e: Effect, j: nat, nowMs: int): (r: Scene)
    requires j < |s.powerUps|
    ensures OnlyDestroys(s, r)
  {
    match e
    case ReduceTime(amount) =>
      if s.powerUps[j].effect.ReduceTime? then SetTimeLimit(s, Int32.Wrap(s.timeLimit - CeilThreeHalvesToInt(amount))) else s
    case ExtendSafeZone(factor) =>
      if s.powerUps[j].effect.ExtendSafeZone? then s.(maxSafeDistance := s.maxSafeDistance * (factor * 1.1))
      else s.(maxSafeDistance := s.maxSafeDistance * factor)
    case TemporaryDestroy(duration) => DestroyForAWhile(s, PowerUpTarget(j), nowMs, duration)
  }

  /** `ApplyTooFar(level)`: only `ExtendSafeZone` reacts. */
  function ApplyTooFar(s: Scene, e: Effect): (r: Scene)
    ensures OnlyDestroys(s, r)
  {
    match e
    case ExtendSafeZone(factor) => s.(maxSafeDistance := s.maxSafeDistance * factor)
    case _ => s
  }

  /** `ApplyTimeOver(level)`: a no-op in all three classes. */
  function ApplyTimeOver(s: Scene, e: Effect): (r: Scene)
    ensures r == s
  {
    s
  }

  /** The hooks of `ReduceTimePowerUp` change the time limit and nothing else. */
  lemma ReduceTimeTouchesOnlyTimeLimit(s: Scene, amount: int, k: nat, nowMs: int)
    requires k < |s.planets| && k < |s.suns| && k < |s.powerUps|
    ensures ApplyPlanet(s, ReduceTime(amount), k, nowMs) == s.(timeLimit := ApplyPlanet(s, ReduceTime(amount), k, nowMs).timeLimit)
    ensures ApplySun(s, ReduceTime(amount), k, nowMs) == s.(timeLimit := ApplySun(s, ReduceTime(amount), k, nowMs).timeLimit)
    ensures ApplyPowerup(s, ReduceTime(amount), k, nowMs) == s.(timeLimit := ApplyPowerup(s, ReduceTime(amount), k, nowMs).timeLimit)
    ensures ApplyTooFar(s, ReduceTime(amount)) == s && ApplyTimeOver(s, ReduceTime(amount)) == s
  {
  }

  /**
   * The time-limit arithmetic of `ReduceTimePowerUp`: a Good planet or a sun
   * takes `amount` off, a Bad planet adds it, a Neutral planet (or one whose
   * type value has no declared member, which no `case` matches) does nothing,
   * another `ReduceTimePowerUp` takes `(int)Math.Ceiling(1.5 * amount)` off.
   * Each sum is a 32-bit `int` sum, wrapped before the setter clamps it at
   * zero; while it fits, the limit is simply `max(0, T +- amount)`.
   */
  lemma ReduceTimeAmounts(s: Scene, amount: int, k: nat, nowMs: int)
    requires k < |s.planets| && k < |s.suns| && k < |s.powerUps|
    ensures s.planets[k].kind == Good ==>
      ApplyPlanet(s, ReduceTime(amount), k, nowMs).timeLimit == ClampTimeLimit(Int32.Wrap(s.timeLimit - amount))
    ensures s.planets[k].kind != Good && s.planets[k].kind != Bad ==> ApplyPlanet(s, ReduceTime(amount), k, nowMs) == s
    ensures s.planets[k].kind == Bad ==>
      ApplyPlanet(s, ReduceTime(amount), k, nowMs).timeLimit == ClampTimeLimit(Int32.Wrap(s.timeLimit + amount))
    ensures ApplySun(s, ReduceTime(amount), k, nowMs).timeLimit == ClampTimeLimit(Int32.Wrap(s.timeLimit - amount))
    ensures s.powerUps[k].effect.ReduceTime? ==>
      ApplyPowerup(s, ReduceTime(amount), k, nowMs).timeLimit
        == ClampTimeLimit(Int32.Wrap(s.timeLimit - CeilThreeHalvesToInt(amount)))
    ensures !s.powerUps[k].effect.ReduceTime? ==> ApplyPowerup(s, ReduceTime(amount), k, nowMs) == s
    ensures Int32.InRange(s.timeLimit - amount) ==>
      ApplySun(s, ReduceTime(amount), k, nowMs).timeLimit == ClampTimeLimit(s.timeLimit - amount)
    ensures Int32.InRange(s.timeLimit + amount) && s.planets[k].kind == Bad ==>
      ApplyPlanet(s, ReduceTime(amount), k, nowMs).timeLimit == ClampTimeLimit(s.timeLimit + amount)
  {
  }

  /**
   * A Bad planet is meant to lengthen the limit, but a time limit of 10 with
   * an amount of `int.MaxValue` wraps to a negative sum, which the setter
   * clamps to 0: the level is over at the next check.
   */
  lemma ReduceTimeOverflowEndsLevel(s: Scene, k: nat)
    requires k < |s.planets| && s.planets[k].kind == Bad && s.timeLimit == 10
    ensures ApplyPlanet(s, ReduceTime(Int32.MaxValue), k, 0).timeLimit == 0
  {
    assert Int32.Wrap(10 + Int32.MaxValue) == 10 + Int32.MaxValue - Int32.Modulus;
  }

  /** A time limit of 5 and a Good planet hit by a 10-second power-up leave 0, not -5. */
  lemma ReduceTimeClampsAtZero(s: Scene, k: nat)
    requires k < |s.planets| && s.planets[k].kind == Good && s.timeLimit == 5
    ensures ApplyPlanet(s, ReduceTime(10), k, 0).timeLimit == 0
  {
  }

  /**
   * The hooks of `ExtendSafeZone` multiply the safe distance and change nothing
   * else: by the factor, or by 1.1 times the factor against another
   * `ExtendSafeZone`; `ApplyTimeOver` does nothing.
   */
  lemma ExtendSafeZoneTouchesOnlyDistance(s: Scene, factor: real, k: nat, nowMs: int)
    requires k < |s.planets| && k < |s.suns| && k < |s.powerUps|
    ensures ApplyPlanet(s, ExtendSafeZone(factor), k, nowMs) == s.(maxSafeDistance := s.maxSafeDistance * factor)
    ensures ApplySun(s, ExtendSafeZone(factor), k, nowMs) == s.(maxSafeDistance := s.maxSafeDistance * factor)
    ensures ApplyTooFar(s, ExtendSafeZone(factor)) == s.(maxSafeDistance := s.maxSafeDistance * factor)
    ensures ApplyPowerup(s, ExtendSafeZone(factor), k, nowMs) ==
      s.(maxSafeDistance := s.maxSafeDistance * (if s.powerUps[k].effect.ExtendSafeZone? then factor * 1.1 else factor))
    ensures ApplyTimeOver(s, ExtendSafeZone(factor)) == s
  {
  }

  /**
   * Each collision hook of `TemporaryDestroy` destroys its target (an immortal
   * planet or power-up excepted) and subscribes exactly one keeper due
   * `duration` ms after now, even when the destroy was suppressed; nothing else
   * changes.
   */
  lemma TemporaryDestroyHooks(s: Scene, duration: int, k: nat, nowMs: int)
    requires k < |s.planets| && k < |s.suns| && k < |s.powerUps|
    ensures var r := ApplySun(s, TemporaryDestroy(duration), k, nowMs);
      r.suns[k].body.isDestroyed && r.pending == s.pending + [Keeper(SunTarget(k), nowMs, nowMs + duration)]
      && r.(suns := s.suns, pending := s.pending) == s
    ensures var r := ApplyPlanet(s, TemporaryDestroy(duration), k, nowMs);
      r.planets[k].body == SetDestroyed(s.planets[k].body, true)
      && r.pending == s.pending + [Keeper(PlanetTarget(k), nowMs, nowMs + duration)]
      && r.(planets := s.planets, pending := s.pending) == s
    ensures var r := ApplyPowerup(s, TemporaryDestroy(duration), k, nowMs);
      r.powerUps[k].body == SetDestroyed(s.powerUps[k].body, true)
      && r.pending == s.pending + [Keeper(PowerUpTarget(k), nowMs, nowMs + duration)]
      && r.(powerUps := s.powerUps, pending := s.pending) == s
    ensures ApplyTooFar(s, TemporaryDestroy(duration)) == s
    ensures ApplyTimeOver(s, TemporaryDestroy(duration)) == s
  {
  }

  /** Whatever the hook, a non-negative time limit stays non-negative. */
  lemma HooksKeepTimeLimitNonNegative(s: Scene, e: Effect, k: nat, nowMs: int)
    requires s.timeLimit >= 0
    requires k < |s.planets| && k < |s.suns| && k < |s.powerUps|
    ensures ApplyPlanet(s, e, k, nowMs).timeLimit >= 0
    ensures ApplySun(s, e, k, nowMs).timeLimit >= 0
    ensures ApplyPowerup(s, e, k, nowMs).timeLimit >= 0
    ensures ApplyTooFar(s, e).timeLimit >= 0
  {
  }

  /**
   * `TimeKeeper.CheckTime` on one timer tick: once the level has ended the
   * keeper unsubscribes without resurrecting; after its deadline has passed it
   * resurrects its target and unsubscribes; before that nothing happens. The
   * boolean says whether the keeper stays subscribed.
   */
  function CheckTime(s: Scene, k: Keeper, levelEnded: bool, nowMs: int): (Scene, bool) {
    if levelEnded then (s, false)
    else if nowMs > k.endTimeMs then (Revive(s, k.target), false)
    else (s, true)
  }

  /**
   * All keepers subscribed at the start of a timer tick, run in subscription
   * order: the scene afterwards and the keepers still subscribed.
   */
  function RunKeepers(s: Scene, ks: seq<Keeper>, levelEnded: bool, nowMs: int): (r: (Scene, seq<Keeper>))
    ensures SameShape(s, r.0)
    decreases |ks|
  {
    if |ks| == 0 then (s, [])
    else
      var (s1, kept) := RunKeepers(s, ks[..|ks| - 1], levelEnded, nowMs);
      var (s2, stays) := CheckTime(s1, ks[|ks| - 1], levelEnded, nowMs);
      (s2, if stays then kept + [ks[|ks| - 1]] else kept)
  }

  /** The keepers whose deadline has not yet passed, in order. */
  function Waiting(ks: seq<Keeper>, nowMs: int): (r: seq<Keeper>)
    decreases |ks|
  {
    if |ks| == 0 then []
    else Waiting(ks[..|ks| - 1], nowMs) + (if nowMs > ks[|ks| - 1].endTimeMs then [] else [ks[|ks| - 1]])
  }

  /** Once the level has ended every keeper unsubscribes and nothing is resurrected. */
  lemma {:induction false} EndedLevelDropsKeepers(s: Scene, ks: seq<Keeper>, nowMs: int)
    ensures RunKeepers(s, ks, true, nowMs) == (s, [])
    decreases |ks|
  {
    if |ks| > 0 {
      EndedLevelDropsKeepers(s, ks[..|ks| - 1], nowMs);
    }
  }

  lemma ReviveKeepsOthersAlive(s: Scene, t: Target, u: Target)
    requires !IsDestroyed(s, u)
    ensures !IsDestroyed(Revive(s, t), u)
  {
  }

  /**
   * While the level runs, exactly the keepers whose deadline is not yet past
   * stay subscribed, and the target of every keeper whose deadline has passed
   * is alive afterwards. A keeper that fired is gone, so it fires only once.
   */
  lemma {:induction false} RunningKeepers(s: Scene, ks: seq<Keeper>, nowMs: int)
    ensures RunKeepers(s, ks, false, nowMs).1 == Waiting(ks, nowMs)
    ensures forall i :: 0 <= i < |ks| && nowMs > ks[i].endTimeMs ==>
      !IsDestroyed(RunKeepers(s, ks, false, nowMs).0, ks[i].target)
    decreases |ks|
  {
    if |ks| > 0 {
      var front := ks[..|ks| - 1];
      RunningKeepers(s, front, nowMs);
      var (s1, kept) := RunKeepers(s, front, false, nowMs);
      var last := ks[|ks| - 1];
      var s2 := RunKeepers(s, ks, false, nowMs).0;
      forall i | 0 <= i < |ks| && nowMs > ks[i].endTimeMs
        ensures !IsDestroyed(s2, ks[i].target)
      {
        if i < |ks| - 1 {
          assert ks[i] == front[i];
          if nowMs > last.endTimeMs {
            ReviveKeepsOthersAlive(s1, last.target, ks[i].target);
          }
        }
      }
    }
  }
}
