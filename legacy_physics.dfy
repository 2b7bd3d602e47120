/**
 * One tick of the older game's `PhysicsEngine` (ZapoctakProg2/PhysicsEngine.cs)
 * and the hooks of its one power-up class, `ReduceTimePowerUp`
 * (ZapoctakProg2/PowerUp.cs), as functions on a scene. The engine class in
 * `LegacyLevels` runs the C# loops and is proved to produce these scenes.
 *
 * The older objects have no immortality: every `IsDestroyed` is a plain
 * property, so destroying is `b.(isDestroyed := true)` and `isImmortal` is
 * never read. The safe distance is fixed when the engine is built, so it is
 * a parameter here rather than part of the scene.
 */
module LegacyPhysics {
  import opened Wrappers
  import opened Bodies
  import PowerUps
  import Int32
  import Physics

  /** A `ReduceTimePowerUp`: its body and `reduceAmount`. */
  datatype PowerUp = PowerUp(body: Body, reduceAmount: int)

  /** The part of an older level that the engine and the hooks change. */
  datatype Scene = Scene(suns: seq<Sun>, planets: seq<Planet>, powerUps: seq<PowerUp>, timeLimit: int)

  function PowerUpBodies(powerUps: seq<PowerUp>): (r: seq<Body>)
    ensures |r| == |powerUps| && forall k :: 0 <= k < |powerUps| ==> r[k] == powerUps[k].body
  {
    seq(|powerUps|, k requires 0 <= k < |powerUps| => powerUps[k].body)
  }

  predicate SameShape(s: Scene, r: Scene) {
    |r.suns| == |s.suns| && |r.planets| == |s.planets| && |r.powerUps| == |s.powerUps|
  }

  predicate SunLater(s: Scene, r: Scene, k: int) {
    0 <= k < |s.suns| && k < |r.suns|
    && r.suns[k] == s.suns[k].(body := r.suns[k].body) && PowerUps.LaterBody(s.suns[k].body, r.suns[k].body)
  }

  predicate PlanetLater(s: Scene, r: Scene, k: int) {
    0 <= k < |s.planets| && k < |r.planets|
    && r.planets[k] == s.planets[k].(body := r.planets[k].body) && PowerUps.LaterBody(s.planets[k].body, r.planets[k].body)
  }

  predicate PowerUpLater(s: Scene, r: Scene, k: int) {
    0 <= k < |s.powerUps| && k < |r.powerUps|
    && r.powerUps[k] == s.powerUps[k].(body := r.powerUps[k].body) && PowerUps.LaterBody(s.powerUps[k].body, r.powerUps[k].body)
  }

  /**
   * Between `s` and `r` every body kept its place, data and motion, no
   * destroyed flag was cleared, and a non-negative time limit stayed so.
   */
  predicate OnlyDestroys(s: Scene, r: Scene) {
    SameShape(s, r) && (s.timeLimit >= 0 ==> r.timeLimit >= 0)
    && (forall k :: 0 <= k < |s.suns| ==> SunLater(s, r, k))
    && (forall k :: 0 <= k < |s.planets| ==> PlanetLater(s, r, k))
    && (forall k :: 0 <= k < |s.powerUps| ==> PowerUpLater(s, r, k))
  }

  lemma OnlyDestroysTransitive(s: Scene, m: Scene, r: Scene)
    requires OnlyDestroys(s, m) && OnlyDestroys(m, r)
    ensures OnlyDestroys(s, r)
  {
    forall k | 0 <= k < |s.suns|
      ensures SunLater(s, r, k)
    {
      assert SunLater(s, m, k) && SunLater(m, r, k);
    }
    forall k | 0 <= k < |s.planets|
      ensures PlanetLater(s, r, k)
    {
      assert PlanetLater(s, m, k) && PlanetLater(m, r, k);
    }
    forall k | 0 <= k < |s.powerUps|
      ensures PowerUpLater(s, r, k)
    {
      assert PowerUpLater(s, m, k) && PowerUpLater(m, r, k);
    }
  }

  // ---------------------------------------------------------------- hooks of ReduceTimePowerUp

  /** The `Level.TimeLimit` setter, which stores `Math.Max(0, value)`. */
  function SetTimeLimit(s: Scene, value: int): (r: Scene)
    ensures r.(timeLimit := s.timeLimit) == s && r.timeLimit >= 0
    ensures r.timeLimit == value || (value < 0 && r.timeLimit == 0)
  {
    s.(timeLimit := PowerUps.ClampTimeLimit(value))
  }

  /** `ApplyPlanet`: a Good planet shortens the limit, a Bad one lengthens it, any other type does nothing. */
  function ApplyPlanet(s: Scene, amount: int, k: nat): Scene
    requires k < |s.planets|
  {
    var kind := s.planets[k].kind;
    if kind == Good then SetTimeLimit(s, Int32.Wrap(s.timeLimit - amount))
    else if kind == Bad then SetTimeLimit(s, Int32.Wrap(s.timeLimit + amount))
    else s
  }

  /** `ApplySun`: the limit shortens by the amount. */
  function ApplySun(s: Scene, amount: int): Scene {
    SetTimeLimit(s, Int32.Wrap(s.timeLimit - amount))
  }

  /**
   * `ApplyPowerup`: the other object's type is tested against
   * `ReduceTimePowerUp`; every power-up of this model is one, so the limit
   * shortens by `ceil(1.5 * amount)`.
   */
  function ApplyPowerup(s: Scene, amount: int): Scene {
    SetTimeLimit(s, Int32.Wrap(s.timeLimit - PowerUps.CeilThreeHalvesToInt(amount)))
  }

  /**
   * Each hook changes the time limit only, and to `max(0, T + change)` where
   * the change is minus the amount for a Good planet and for a sun, plus the
   * amount for a Bad planet, nothing for any other planet, and minus
   * `(int)Math.Ceiling(1.5 * amount)` for another power-up; each sum is a
   * 32-bit `int` sum, wrapped before the clamp.
   */
  lemma ReduceTimeEffects(s: Scene, amount: int, k: nat)
    requires k < |s.planets|
    ensures ApplyPlanet(s, amount, k).(timeLimit := s.timeLimit) == s
    ensures ApplySun(s, amount).(timeLimit := s.timeLimit) == s
    ensures ApplyPowerup(s, amount).(timeLimit := s.timeLimit) == s
    ensures s.planets[k].kind == Good ==> ApplyPlanet(s, amount, k).timeLimit == Max0(Int32.Wrap(s.timeLimit - amount))
    ensures s.planets[k].kind == Bad ==> ApplyPlanet(s, amount, k).timeLimit == Max0(Int32.Wrap(s.timeLimit + amount))
    ensures s.planets[k].kind != Good && s.planets[k].kind != Bad ==> ApplyPlanet(s, amount, k) == s
    ensures ApplySun(s, amount).timeLimit == Max0(Int32.Wrap(s.timeLimit - amount))
    ensures -1431655765 <= amount <= 1431655764 ==>
      ApplyPowerup(s, amount).timeLimit == Max0(Int32.Wrap(s.timeLimit - (3 * amount + 1) / 2))
    ensures !(-1431655765 <= amount <= 1431655764) ==>
      ApplyPowerup(s, amount).timeLimit == Max0(Int32.Wrap(s.timeLimit - Int32.MinValue))
  {
    assert PowerUps.CeilThreeHalves(amount) == (3 * amount + 1) / 2;
  }

  function Max0(x: int): int {
    if x < 0 then 0 else x
  }

  // ---------------------------------------------------------------- moving

  function MoveBody(b: Body): Body {
    if b.isDestroyed then b else UpdatePosition(b)
  }

  /** `UpdatePositions`: every live planet and power-up advances; suns never move. */
  function Move(s: Scene): (r: Scene)
    ensures SameShape(s, r) && r.suns == s.suns && r.timeLimit == s.timeLimit
    ensures forall k :: 0 <= k < |s.planets| ==> r.planets[k] == s.planets[k].(body := MoveBody(s.planets[k].body))
    ensures forall k :: 0 <= k < |s.powerUps| ==> r.powerUps[k] == s.powerUps[k].(body := MoveBody(s.powerUps[k].body))
  {
    s.(planets := seq(|s.planets|, k requires 0 <= k < |s.planets| => s.planets[k].(body := MoveBody(s.planets[k].body))),
       powerUps := seq(|s.powerUps|, k requires 0 <= k < |s.powerUps| => s.powerUps[k].(body := MoveBody(s.powerUps[k].body))))
  }

  // ---------------------------------------------------------------- radius cull

  function RadiusCull(p: Planet): Planet {
    if p.body.radius < MinimumRadius then p.(body := p.body.(isDestroyed := true)) else p
  }

  /**
   * `CheckRadii`: a planet ends up destroyed exactly when it was already or
   * its radius is below the minimum; nothing else changes.
   */
  function CheckRadii(s: Scene): (r: Scene)
    ensures OnlyDestroys(s, r)
    ensures r.(planets := s.planets) == s
    ensures forall k :: 0 <= k < |s.planets| ==>
      (r.planets[k].body.isDestroyed <==> s.planets[k].body.isDestroyed || s.planets[k].body.radius < MinimumRadius)
  {
    s.(planets := seq(|s.planets|, k requires 0 <= k < |s.planets| => RadiusCull(s.planets[k])))
  }

  // ---------------------------------------------------------------- power-up collisions

  function DestroyPowerUp(s: Scene, i: nat): (r: Scene)
    requires i < |s.powerUps|
    ensures OnlyDestroys(s, r)
    ensures r.(powerUps := s.powerUps) == s
    ensures r.powerUps[i].body.isDestroyed
  {
    s.(powerUps := s.powerUps[i := s.powerUps[i].(body := s.powerUps[i].body.(isDestroyed := true))])
  }

  /** A hook followed by the engine's `powerUp.IsDestroyed = true`. */
  function HitThenDestroy(s: Scene, hooked: Scene, i: nat): (r: Scene)
    requires i < |s.powerUps|
    requires hooked.(timeLimit := s.timeLimit) == s && (s.timeLimit >= 0 ==> hooked.timeLimit >= 0)
    ensures OnlyDestroys(s, r)
  {
    OnlyDestroysTransitive(s, hooked, DestroyPowerUp(hooked, i));
    DestroyPowerUp(hooked, i)
  }

  /**
   * One iteration of `CheckPowerUps` for power-up `i`: skipped if destroyed;
   * otherwise the first live sun it overlaps, else the first live planet,
   * else the first live later power-up fires one hook of `i`, and `i` is
   * destroyed. The goto ends the iteration at the first hit.
   */
  function PowerUpStep(s: Scene, i: nat): (r: Scene)
    requires i < |s.powerUps|
    ensures OnlyDestroys(s, r)
  {
    var p := s.powerUps[i];
    if p.body.isDestroyed then s
    else match FirstLiveHit(SunBodies(s.suns), p.body, 0)
      case Some(_) => HitThenDestroy(s, ApplySun(s, p.reduceAmount), i)
      case None =>
        match FirstLiveHit(PlanetBodies(s.planets), p.body, 0)
        case Some(k) => HitThenDestroy(s, ApplyPlanet(s, p.reduceAmount, k), i)
        case None =>
          match FirstLiveHit(PowerUpBodies(s.powerUps), p.body, i + 1)
          case Some(_) => HitThenDestroy(s, ApplyPowerup(s, p.reduceAmount), i)
          case None => s
  }

  /** The first `n` iterations of `CheckPowerUps`. */
  function PowerUpsUpTo(s: Scene, n: nat): (r: Scene)
    requires n <= |s.powerUps|
    ensures OnlyDestroys(s, r)
    decreases n
  {
    if n == 0 then s
    else
      var m := PowerUpsUpTo(s, n - 1);
      OnlyDestroysTransitive(s, m, PowerUpStep(m, n - 1));
      PowerUpStep(m, n - 1)
  }

  /** A live power-up overlapping a live sun fires `ApplySun` and is destroyed; nothing else happens. */
  lemma SunHitComesFirst(s: Scene, i: nat, k: nat)
    requires i < |s.powerUps| && !s.powerUps[i].body.isDestroyed
    requires k < |s.suns| && LiveHit(s.powerUps[i].body, s.suns[k].body)
    ensures PowerUpStep(s, i) == DestroyPowerUp(ApplySun(s, s.powerUps[i].reduceAmount), i)
  {
    assert SunBodies(s.suns)[k] == s.suns[k].body;
  }

  /** With no live sun in reach, the first live planet overlapped gets `ApplyPlanet`. */
  lemma PlanetHitOnlyWithoutSun(s: Scene, i: nat, k: nat)
    requires i < |s.powerUps| && !s.powerUps[i].body.isDestroyed
    requires forall m :: 0 <= m < |s.suns| ==> !LiveHit(s.powerUps[i].body, s.suns[m].body)
    requires k < |s.planets| && LiveHit(s.powerUps[i].body, s.planets[k].body)
    requires forall m :: 0 <= m < k ==> !LiveHit(s.powerUps[i].body, s.planets[m].body)
    ensures PowerUpStep(s, i) == DestroyPowerUp(ApplyPlanet(s, s.powerUps[i].reduceAmount, k), i)
  {
    NoLiveHitFindsNothing(SunBodies(s.suns), s.powerUps[i].body, 0);
    LeastLiveHitFound(PlanetBodies(s.planets), s.powerUps[i].body, 0, k);
  }

  /**
   * With no live sun or planet in reach, a live power-up `i` overlapping a
   * live later power-up `j` fires its own `ApplyPowerup` only: `j` keeps its
   * state and the limit changes by `i`'s amount alone.
   */
  lemma PowerUpPairOneSided(s: Scene, i: nat, j: nat)
    requires i < j < |s.powerUps| && !s.powerUps[i].body.isDestroyed
    requires forall m :: 0 <= m < |s.suns| ==> !LiveHit(s.powerUps[i].body, s.suns[m].body)
    requires forall m :: 0 <= m < |s.planets| ==> !LiveHit(s.powerUps[i].body, s.planets[m].body)
    requires LiveHit(s.powerUps[i].body, s.powerUps[j].body)
    ensures PowerUpStep(s, i) == DestroyPowerUp(ApplyPowerup(s, s.powerUps[i].reduceAmount), i)
    ensures PowerUpStep(s, i).powerUps[j] == s.powerUps[j]
  {
    NoLiveHitFindsNothing(SunBodies(s.suns), s.powerUps[i].body, 0);
    NoLiveHitFindsNothing(PlanetBodies(s.planets), s.powerUps[i].body, 0);
    assert PowerUpBodies(s.powerUps)[j] == s.powerUps[j].body;
  }

  /** A destroyed power-up, or one that reaches nothing live, changes nothing. */
  lemma QuietPowerUpChangesNothing(s: Scene, i: nat)
    requires i < |s.powerUps|
    requires s.powerUps[i].body.isDestroyed ||
      ((forall m :: 0 <= m < |s.suns| ==> !LiveHit(s.powerUps[i].body, s.suns[m].body))
       && (forall m :: 0 <= m < |s.planets| ==> !LiveHit(s.powerUps[i].body, s.planets[m].body))
       && (forall m :: i < m < |s.powerUps| ==> !LiveHit(s.powerUps[i].body, s.powerUps[m].body)))
    ensures PowerUpStep(s, i) == s
  {
    if !s.powerUps[i].body.isDestroyed {
      NoLiveHitFindsNothing(SunBodies(s.suns), s.powerUps[i].body, 0);
      NoLiveHitFindsNothing(PlanetBodies(s.planets), s.powerUps[i].body, 0);
      NoLiveHitFindsNothing(PowerUpBodies(s.powerUps), s.powerUps[i].body, i + 1);
    }
  }

  // ---------------------------------------------------------------- planet-sun crashes

  function SunCull(p: Planet, suns: seq<Sun>): Planet {
    if Physics.OverlapsAnySun(p.body, suns) then p.(body := p.body.(isDestroyed := true)) else p
  }

  /**
   * The planet-sun loop of `CheckCrashes`: no flag is consulted on either
   * side, so every planet overlapping any sun ends up destroyed; suns are
   * never destroyed here.
   */
  function PlanetSunPass(s: Scene): (r: Scene)
    ensures OnlyDestroys(s, r)
    ensures r.(planets := s.planets) == s
    ensures forall k :: 0 <= k < |s.planets| ==>
      (r.planets[k].body.isDestroyed <==> s.planets[k].body.isDestroyed || Physics.OverlapsAnySun(s.planets[k].body, s.suns))
  {
    s.(planets := seq(|s.planets|, k requires 0 <= k < |s.planets| => SunCull(s.planets[k], s.suns)))
  }

  // ---------------------------------------------------------------- planet-planet crashes

  /** The outer loop runs `for (i = 0; i < planets.Count - 1; i++)`. */
  function PairBound(s: Scene): nat {
    if |s.planets| == 0 then 0 else |s.planets| - 1
  }

  function DestroyPlanet(s: Scene, k: nat): (r: Scene)
    requires k < |s.planets|
    ensures OnlyDestroys(s, r)
    ensures r.(planets := s.planets) == s
  {
    s.(planets := s.planets[k := s.planets[k].(body := s.planets[k].body.(isDestroyed := true))])
  }

  /** One outer iteration: a live planet and the first live later planet it overlaps are destroyed, then `break`. */
  function PairStep(s: Scene, i: nat): (r: Scene)
    requires i < |s.planets|
    ensures OnlyDestroys(s, r)
    ensures r.(planets := s.planets) == s
  {
    if s.planets[i].body.isDestroyed then s
    else match FirstLiveHit(PlanetBodies(s.planets), s.planets[i].body, i + 1)
      case Some(j) => DestroyPlanet(DestroyPlanet(s, i), j)
      case None => s
  }

  function PairsUpTo(s: Scene, n: nat): (r: Scene)
    requires n <= |s.planets|
    ensures OnlyDestroys(s, r)
    ensures r.(planets := s.planets) == s
    decreases n
  {
    if n == 0 then s
    else
      var m := PairsUpTo(s, n - 1);
      OnlyDestroysTransitive(s, m, PairStep(m, n - 1));
      PairStep(m, n - 1)
  }

  /** Planet `i` is destroyed or overlaps no live later planet. */
  predicate Settled(s: Scene, i: nat)
    requires i < |s.planets|
  {
    s.planets[i].body.isDestroyed
    || forall j :: i < j < |s.planets| ==> !LiveHit(s.planets[i].body, s.planets[j].body)
  }

  lemma SettledPersists(s: Scene, r: Scene, i: nat)
    requires OnlyDestroys(s, r) && i < |s.planets| && Settled(s, i)
    ensures Settled(r, i)
  {
    if !r.planets[i].body.isDestroyed {
      forall j | i < j < |r.planets|
        ensures !LiveHit(r.planets[i].body, r.planets[j].body)
      {
        assert PlanetLater(s, r, i) && PlanetLater(s, r, j);
        CollisionIgnoresFlags(s.planets[i].body, s.planets[j].body,
                              r.planets[i].body.isDestroyed, r.planets[j].body.isDestroyed);
      }
    }
  }

  lemma PairStepSettles(m: Scene, i: nat)
    requires i < |m.planets|
    ensures Settled(PairStep(m, i), i)
  {
    if !m.planets[i].body.isDestroyed {
      var h := FirstLiveHit(PlanetBodies(m.planets), m.planets[i].body, i + 1);
      if h.None? {
        forall j | i < j < |m.planets|
          ensures !LiveHit(m.planets[i].body, m.planets[j].body)
        {
          assert PlanetBodies(m.planets)[j] == m.planets[j].body;
        }
      }
    }
  }

  lemma {:induction false} PairsSettle(s: Scene, n: nat)
    requires n <= |s.planets|
    ensures forall i :: 0 <= i < n ==> Settled(PairsUpTo(s, n), i)
    decreases n
  {
    if n > 0 {
      PairsSettle(s, n - 1);
      var m := PairsUpTo(s, n - 1);
      var r := PairsUpTo(s, n);
      assert r == PairStep(m, n - 1);
      PairStepSettles(m, n - 1);
      forall i | 0 <= i < n - 1
        ensures Settled(r, i)
      {
        SettledPersists(m, r, i);
      }
    }
  }

  /** After the planet-planet loop no two live planets overlap. */
  lemma NoLiveOverlapAfterPairs(s: Scene)
    ensures var r := PairsUpTo(s, PairBound(s));
      forall i, j :: 0 <= i < j < |r.planets| && !r.planets[i].body.isDestroyed ==>
        !LiveHit(r.planets[i].body, r.planets[j].body)
  {
    PairsSettle(s, PairBound(s));
    var r := PairsUpTo(s, PairBound(s));
    forall i, j | 0 <= i < j < |r.planets| && !r.planets[i].body.isDestroyed
      ensures !LiveHit(r.planets[i].body, r.planets[j].body)
    {
      assert i < PairBound(s) && Settled(r, i);
    }
  }

  /** `CheckCrashes`: power-ups first, then planets against suns, then planet pairs. */
  function Crashes(s: Scene): (r: Scene)
    ensures OnlyDestroys(s, r)
  {
    var a := PowerUpsUpTo(s, |s.powerUps|);
    var b := PlanetSunPass(a);
    OnlyDestroysTransitive(s, a, b);
    OnlyDestroysTransitive(s, b, PairsUpTo(b, PairBound(b)));
    PairsUpTo(b, PairBound(b))
  }

  // ---------------------------------------------------------------- safe zone

  /** No live sun lies within `maxDistance` of `b`. */
  predicate Exiled(b: Body, suns: seq<Sun>, maxDistance: real) {
    Physics.SunsInRange(b, suns, maxDistance, |suns|) == 0
  }

  function ExilePlanet(p: Planet, suns: seq<Sun>, maxDistance: real): Planet {
    if !p.body.isDestroyed && Exiled(p.body, suns, maxDistance) then p.(body := p.body.(isDestroyed := true)) else p
  }

  /**
   * `ApplyTooFar` has an empty body, so the power-up loop only destroys the
   * exiled power-ups.
   */
  function ExilePowerUp(p: PowerUp, suns: seq<Sun>, maxDistance: real): PowerUp {
    if !p.body.isDestroyed && Exiled(p.body, suns, maxDistance) then p.(body := p.body.(isDestroyed := true)) else p
  }

  /**
   * `CheckDistanceFromSuns`: a planet or power-up ends up destroyed exactly
   * when it was already or no live sun lies within the fixed safe distance.
   */
  function CheckDistanceFromSuns(s: Scene, maxDistance: real): (r: Scene)
    ensures OnlyDestroys(s, r)
    ensures r.suns == s.suns && r.timeLimit == s.timeLimit
    ensures forall k :: 0 <= k < |s.planets| ==>
      (r.planets[k].body.isDestroyed <==> s.planets[k].body.isDestroyed || Exiled(s.planets[k].body, s.suns, maxDistance))
    ensures forall k :: 0 <= k < |s.powerUps| ==>
      (r.powerUps[k].body.isDestroyed <==> s.powerUps[k].body.isDestroyed || Exiled(s.powerUps[k].body, s.suns, maxDistance))
  {
    s.(planets := seq(|s.planets|, k requires 0 <= k < |s.planets| => ExilePlanet(s.planets[k], s.suns, maxDistance)),
       powerUps := seq(|s.powerUps|, k requires 0 <= k < |s.powerUps| => ExilePowerUp(s.powerUps[k], s.suns, maxDistance)))
  }

  /** After the safe-zone pass every live planet and power-up has a live sun within the safe distance. */
  lemma SurvivorsAreInRange(s: Scene, maxDistance: real)
    ensures var r := CheckDistanceFromSuns(s, maxDistance);
      forall k :: 0 <= k < |r.planets| && !r.planets[k].body.isDestroyed ==>
        exists m :: 0 <= m < |r.suns| && !r.suns[m].body.isDestroyed
                    && WithinDistance(r.planets[k].body, r.suns[m].body, maxDistance)
    ensures var r := CheckDistanceFromSuns(s, maxDistance);
      forall k :: 0 <= k < |r.powerUps| && !r.powerUps[k].body.isDestroyed ==>
        exists m :: 0 <= m < |r.suns| && !r.suns[m].body.isDestroyed
                    && WithinDistance(r.powerUps[k].body, r.suns[m].body, maxDistance)
  {
    var r := CheckDistanceFromSuns(s, maxDistance);
    forall k | 0 <= k < |r.planets| && !r.planets[k].body.isDestroyed
      ensures exists m :: 0 <= m < |r.suns| && !r.suns[m].body.isDestroyed
                    && WithinDistance(r.planets[k].body, r.suns[m].body, maxDistance)
    {
      Physics.NoSunInRange(s.planets[k].body, s.suns, maxDistance, |s.suns|);
      var m :| 0 <= m < |s.suns| && !s.suns[m].body.isDestroyed
               && WithinDistance(s.planets[k].body, s.suns[m].body, maxDistance);
      assert WithinDistance(r.planets[k].body, r.suns[m].body, maxDistance);
    }
    forall k | 0 <= k < |r.powerUps| && !r.powerUps[k].body.isDestroyed
      ensures exists m :: 0 <= m < |r.suns| && !r.suns[m].body.isDestroyed
                    && WithinDistance(r.powerUps[k].body, r.suns[m].body, maxDistance)
    {
      Physics.NoSunInRange(s.powerUps[k].body, s.suns, maxDistance, |s.suns|);
      var m :| 0 <= m < |s.suns| && !s.suns[m].body.isDestroyed
               && WithinDistance(s.powerUps[k].body, s.suns[m].body, maxDistance);
      assert WithinDistance(r.powerUps[k].body, r.suns[m].body, maxDistance);
    }
  }

  // ---------------------------------------------------------------- the tick

  /** `Tick`: move, cull small planets, crashes, then the safe zone. */
  function Tick(s: Scene, maxDistance: real): (r: Scene)
    ensures SameShape(s, r)
  {
    var m := Move(s);
    var a := CheckRadii(m);
    var b := Crashes(a);
    CheckDistanceFromSuns(b, maxDistance)
  }

  /**
   * Nothing destroyed before a tick is alive after it, and a non-negative
   * time limit stays non-negative.
   */
  lemma TickNeverRevives(s: Scene, maxDistance: real)
    ensures s.timeLimit >= 0 ==> Tick(s, maxDistance).timeLimit >= 0
    ensures forall k :: 0 <= k < |s.suns| && s.suns[k].body.isDestroyed ==> Tick(s, maxDistance).suns[k].body.isDestroyed
    ensures forall k :: 0 <= k < |s.planets| && s.planets[k].body.isDestroyed ==> Tick(s, maxDistance).planets[k].body.isDestroyed
    ensures forall k :: 0 <= k < |s.powerUps| && s.powerUps[k].body.isDestroyed ==> Tick(s, maxDistance).powerUps[k].body.isDestroyed
  {
    var m := Move(s);
    var a := CheckRadii(m);
    var b := Crashes(a);
    var r := Tick(s, maxDistance);
    OnlyDestroysTransitive(m, a, b);
    OnlyDestroysTransitive(m, b, r);
    forall k | 0 <= k < |s.suns| && s.suns[k].body.isDestroyed
      ensures r.suns[k].body.isDestroyed
    {
      assert SunLater(m, r, k);
    }
    forall k | 0 <= k < |s.planets| && s.planets[k].body.isDestroyed
      ensures r.planets[k].body.isDestroyed
    {
      assert PlanetLater(m, r, k);
    }
    forall k | 0 <= k < |s.powerUps| && s.powerUps[k].body.isDestroyed
      ensures r.powerUps[k].body.isDestroyed
    {
      assert PowerUpLater(m, r, k);
    }
  }
}
