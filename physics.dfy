/**
 * What one tick of the newer `PhysicsEngine` (Zapoctak.Net1/PhysicsEngine.cs)
 * does to the level, pass by pass, as functions on a `Scene`. The engine class
 * in the `Levels` module runs the C# loops and is proved to produce exactly
 * these scenes; the lemmas here state what the passes guarantee.
 *
 * A pass that visits the objects one at a time and whose visits can influence
 * each other (a hook may destroy an object visited later, or change the safe
 * distance) is a left fold `...UpTo(s, n)` over the first `n` indices. A pass
 * whose visits are independent is a pointwise map.
 */
module Physics {
  import opened Wrappers
  import opened Bodies
  import opened PowerUps

  /** Everything but the destroyed flags and the movement is the same in `s` and `r`. */
  predicate FlagsKept(s: Scene, r: Scene) {
    SameShape(s, r)
    && (forall k :: 0 <= k < |s.suns| ==> r.suns[k].body.isDestroyed == s.suns[k].body.isDestroyed)
    && (forall k :: 0 <= k < |s.planets| ==> r.planets[k].body.isDestroyed == s.planets[k].body.isDestroyed)
    && (forall k :: 0 <= k < |s.powerUps| ==> r.powerUps[k].body.isDestroyed == s.powerUps[k].body.isDestroyed)
  }

  /** A non-negative time limit stays non-negative. */
  predicate TimeLimitKept(s: Scene, r: Scene) {
    s.timeLimit >= 0 ==> r.timeLimit >= 0
  }

  // ---------------------------------------------------------------- moving

  /** `if (!p.IsDestroyed) p.UpdatePosition();` for one moving object. */
  function MoveBody(b: Body): Body {
    if b.isDestroyed then b else UpdatePosition(b)
  }

  /** `UpdatePositions`: every live planet and power-up advances; suns never move. */
  function Move(s: Scene): (r: Scene)
    ensures FlagsKept(s, r)
    ensures r.suns == s.suns
    ensures r.(planets := s.planets, powerUps := s.powerUps) == s
  {
    s.(planets := seq(|s.planets|, k requires 0 <= k < |s.planets| => s.planets[k].(body := MoveBody(s.planets[k].body))),
       powerUps := seq(|s.powerUps|, k requires 0 <= k < |s.powerUps| => s.powerUps[k].(body := MoveBody(s.powerUps[k].body))))
  }

  /**
   * A live planet or power-up moves by a twentieth of its velocity and keeps its
   * velocity and radius; a destroyed one stays where it is; kinds and effects stay.
   */
  lemma MoveAdvancesLiveBodies(s: Scene)
    ensures forall k :: 0 <= k < |s.planets| && !s.planets[k].body.isDestroyed ==>
      Move(s).planets[k] == s.planets[k].(body := UpdatePosition(s.planets[k].body))
    ensures forall k :: 0 <= k < |s.planets| && s.planets[k].body.isDestroyed ==> Move(s).planets[k] == s.planets[k]
    ensures forall k :: 0 <= k < |s.powerUps| && !s.powerUps[k].body.isDestroyed ==>
      Move(s).powerUps[k] == s.powerUps[k].(body := UpdatePosition(s.powerUps[k].body))
    ensures forall k :: 0 <= k < |s.powerUps| && s.powerUps[k].body.isDestroyed ==> Move(s).powerUps[k] == s.powerUps[k]
  {
  }

  // ---------------------------------------------------------------- radius cull

  /** The body of `CheckRadii`'s loop for one planet. */
  function RadiusCull(p: Planet): Planet {
    if p.body.radius < MinimumRadius then p.(body := SetDestroyed(p.body, true)) else p
  }

  /**
   * `CheckRadii`: a planet ends up destroyed exactly when it was already, or
   * its radius is below the minimum and it is not immortal. Suns, power-ups
   * and everything else are untouched.
   */
  function CheckRadii(s: Scene): (r: Scene)
    ensures OnlyDestroys(s, r)
    ensures r.(planets := s.planets) == s
    ensures forall k :: 0 <= k < |s.planets| ==>
      (r.planets[k].body.isDestroyed <==>
        s.planets[k].body.isDestroyed || (s.planets[k].body.radius < MinimumRadius && !s.planets[k].body.isImmortal))
  {
    s.(planets := seq(|s.planets|, k requires 0 <= k < |s.planets| => RadiusCull(s.planets[k])))
  }

  // ---------------------------------------------------------------- power-up collisions

  /** `powerUp.IsDestroyed = true` through the guarded setter. */
  function DestroyPowerUp(s: Scene, i: nat): (r: Scene)
    requires i < |s.powerUps|
    ensures OnlyDestroys(s, r)
    ensures r.(powerUps := s.powerUps) == s
  {
    s.(powerUps := s.powerUps[i := s.powerUps[i].(body := SetDestroyed(s.powerUps[i].body, true))])
  }

  /** Power-up `i` hit sun `k`: `ApplySun`, then the engine destroys `i`. */
  function SunHit(s: Scene, i: nat, k: nat, nowMs: int): (r: Scene)
    requires i < |s.powerUps| && k < |s.suns|
    ensures OnlyDestroys(s, r) && TimeLimitKept(s, r)
  {
    var a := ApplySun(s, s.powerUps[i].effect, k, nowMs);
    OnlyDestroysTransitive(s, a, DestroyPowerUp(a, i));
    DestroyPowerUp(a, i)
  }

  /** Power-up `i` hit planet `k`: `ApplyPlanet`, then the engine destroys `i`. */
  function PlanetHit(s: Scene, i: nat, k: nat, nowMs: int): (r: Scene)
    requires i < |s.powerUps| && k < |s.planets|
    ensures OnlyDestroys(s, r) && TimeLimitKept(s, r)
  {
    var a := ApplyPlanet(s, s.powerUps[i].effect, k, nowMs);
    OnlyDestroysTransitive(s, a, DestroyPowerUp(a, i));
    DestroyPowerUp(a, i)
  }

  /**
   * Power-up `i` hit the later power-up `j`: `i`'s `ApplyPowerup` on `j`, then
   * `j`'s on `i`, then the engine destroys `i` only.
   */
  function PairHit(s: Scene, i: nat, j: nat, nowMs: int): (r: Scene)
    requires i < |s.powerUps| && j < |s.powerUps|
    ensures OnlyDestroys(s, r) && TimeLimitKept(s, r)
  {
    var a := ApplyPowerup(s, s.powerUps[i].effect, j, nowMs);
    var b := ApplyPowerup(a, s.powerUps[j].effect, i, nowMs);
    OnlyDestroysTransitive(s, a, b);
    OnlyDestroysTransitive(s, b, DestroyPowerUp(b, i));
    DestroyPowerUp(b, i)
  }

  /**
   * One iteration of `CheckPowerUpCollisions` for power-up `i`: skip it if
   * destroyed; otherwise the first live sun it overlaps, else the first live
   * planet, else the first live later power-up decides which hooks run. The
   * goto ends the iteration at the first hit.
   */
  function PowerUpStep(s: Scene, i: nat, nowMs: int): (r: Scene)
    requires i < |s.powerUps|
    ensures OnlyDestroys(s, r) && TimeLimitKept(s, r)
  {
    var b := s.powerUps[i].body;
    if b.isDestroyed then s
    else match FirstLiveHit(SunBodies(s.suns), b, 0)
      case Some(k) => SunHit(s, i, k, nowMs)
      case None =>
        match FirstLiveHit(PlanetBodies(s.planets), b, 0)
        case Some(k) => PlanetHit(s, i, k, nowMs)
        case None =>
          match FirstLiveHit(PowerUpBodies(s.powerUps), b, i + 1)
          case Some(j) => PairHit(s, i, j, nowMs)
          case None => s
  }

  /** The first `n` iterations of `CheckPowerUpCollisions`. */
  function PowerUpsUpTo(s: Scene, n: nat, nowMs: int): (r: Scene)
    requires n <= |s.powerUps|
    ensures OnlyDestroys(s, r) && TimeLimitKept(s, r)
    decreases n
  {
    if n == 0 then s
    else
      var m := PowerUpsUpTo(s, n - 1, nowMs);
      OnlyDestroysTransitive(s, m, PowerUpStep(m, n - 1, nowMs));
      PowerUpStep(m, n - 1, nowMs)
  }

  /**
   * A live power-up overlapping a live sun fires `ApplySun` with the first
   * such sun and is then destroyed; no planet or power-up hook runs for it.
   */
  lemma SunHitComesFirst(s: Scene, i: nat, k: nat, nowMs: int)
    requires i < |s.powerUps| && !s.powerUps[i].body.isDestroyed
    requires k < |s.suns| && LiveHit(s.powerUps[i].body, s.suns[k].body)
    requires forall m :: 0 <= m < k ==> !LiveHit(s.powerUps[i].body, s.suns[m].body)
    ensures PowerUpStep(s, i, nowMs) == DestroyPowerUp(ApplySun(s, s.powerUps[i].effect, k, nowMs), i)
  {
    LeastLiveHitFound(SunBodies(s.suns), s.powerUps[i].body, 0, k);
  }

  /**
   * With no live sun in reach, a live power-up overlapping a live planet fires
   * `ApplyPlanet` with the first such planet and is then destroyed.
   */
  lemma PlanetHitOnlyWithoutSun(s: Scene, i: nat, k: nat, nowMs: int)
    requires i < |s.powerUps| && !s.powerUps[i].body.isDestroyed
    requires forall m :: 0 <= m < |s.suns| ==> !LiveHit(s.powerUps[i].body, s.suns[m].body)
    requires k < |s.planets| && LiveHit(s.powerUps[i].body, s.planets[k].body)
    requires forall m :: 0 <= m < k ==> !LiveHit(s.powerUps[i].body, s.planets[m].body)
    ensures PowerUpStep(s, i, nowMs) == DestroyPowerUp(ApplyPlanet(s, s.powerUps[i].effect, k, nowMs), i)
  {
    NoLiveHitFindsNothing(SunBodies(s.suns), s.powerUps[i].body, 0);
    LeastLiveHitFound(PlanetBodies(s.planets), s.powerUps[i].body, 0, k);
  }

  /**
   * With no live sun or planet in reach, a live power-up `i` overlapping a
   * live later power-up `j` (the first such) fires `i`'s `ApplyPowerup` on
   * `j`, then `j`'s on `i`, and only `i` is destroyed by the engine.
   */
  lemma PowerUpPairBothHooks(s: Scene, i: nat, j: nat, nowMs: int)
    requires i < j < |s.powerUps| && !s.powerUps[i].body.isDestroyed
    requires forall m :: 0 <= m < |s.suns| ==> !LiveHit(s.powerUps[i].body, s.suns[m].body)
    requires forall m :: 0 <= m < |s.planets| ==> !LiveHit(s.powerUps[i].body, s.planets[m].body)
    requires LiveHit(s.powerUps[i].body, s.powerUps[j].body)
    requires forall m :: i < m < j ==> !LiveHit(s.powerUps[i].body, s.powerUps[m].body)
    ensures PowerUpStep(s, i, nowMs) ==
      DestroyPowerUp(ApplyPowerup(ApplyPowerup(s, s.powerUps[i].effect, j, nowMs), s.powerUps[j].effect, i, nowMs), i)
  {
    NoLiveHitFindsNothing(SunBodies(s.suns), s.powerUps[i].body, 0);
    NoLiveHitFindsNothing(PlanetBodies(s.planets), s.powerUps[i].body, 0);
    LeastLiveHitFound(PowerUpBodies(s.powerUps), s.powerUps[i].body, i + 1, j);
  }

  /** A destroyed power-up, or one that reaches nothing live, changes nothing. */
  lemma QuietPowerUpChangesNothing(s: Scene, i: nat, nowMs: int)
    requires i < |s.powerUps|
    requires s.powerUps[i].body.isDestroyed ||
      ((forall m :: 0 <= m < |s.suns| ==> !LiveHit(s.powerUps[i].body, s.suns[m].body))
       && (forall m :: 0 <= m < |s.planets| ==> !LiveHit(s.powerUps[i].body, s.planets[m].body))
       && (forall m :: i < m < |s.powerUps| ==> !LiveHit(s.powerUps[i].body, s.powerUps[m].body)))
    ensures PowerUpStep(s, i, nowMs) == s
  {
    if !s.powerUps[i].body.isDestroyed {
      NoLiveHitFindsNothing(SunBodies(s.suns), s.powerUps[i].body, 0);
      NoLiveHitFindsNothing(PlanetBodies(s.planets), s.powerUps[i].body, 0);
      NoLiveHitFindsNothing(PowerUpBodies(s.powerUps), s.powerUps[i].body, i + 1);
    }
  }

  // ---------------------------------------------------------------- planet-sun collisions

  /** Some sun, destroyed or not, overlaps `b`. */
  predicate OverlapsAnySun(b: Body, suns: seq<Sun>) {
    exists k :: 0 <= k < |suns| && HasCollidedWith(b, suns[k].body)
  }

  /** The inner `foreach` over the suns for one planet, which breaks at the first overlap. */
  function SunCull(p: Planet, suns: seq<Sun>): Planet {
    if OverlapsAnySun(p.body, suns) then p.(body := SetDestroyed(p.body, true)) else p
  }

  /**
   * The planet-sun loop of `CheckCollisions`: no flag is consulted, so a planet
   * overlapping any sun, even a destroyed one, is destroyed unless immortal;
   * suns are never destroyed here.
   */
  function PlanetSunPass(s: Scene): (r: Scene)
    ensures OnlyDestroys(s, r)
    ensures r.(planets := s.planets) == s
    ensures forall k :: 0 <= k < |s.planets| ==>
      (r.planets[k].body.isDestroyed <==>
        s.planets[k].body.isDestroyed || (OverlapsAnySun(s.planets[k].body, s.suns) && !s.planets[k].body.isImmortal))
  {
    s.(planets := seq(|s.planets|, k requires 0 <= k < |s.planets| => SunCull(s.planets[k], s.suns)))
  }

  // ---------------------------------------------------------------- planet-planet collisions

  /** The outer loop of the planet-planet pass runs `for (i = 0; i < Count - 1; i++)`. */
  function PairBound(s: Scene): nat {
    if |s.planets| == 0 then 0 else |s.planets| - 1
  }

  function DestroyPlanet(s: Scene, k: nat): (r: Scene)
    requires k < |s.planets|
    ensures OnlyDestroys(s, r)
    ensures r.(planets := s.planets) == s
  {
    s.(planets := s.planets[k := s.planets[k].(body := SetDestroyed(s.planets[k].body, true))])
  }

  /**
   * One outer iteration for planet `i`: a live planet and the first live later
   * planet it overlaps are both destroyed, and the inner loop stops.
   */
  function PairStep(s: Scene, i: nat): (r: Scene)
    requires i < |s.planets|
    ensures OnlyDestroys(s, r)
    ensures r.(planets := s.planets) == s
  {
    if s.planets[i].body.isDestroyed then s
    else match FirstLiveHit(PlanetBodies(s.planets), s.planets[i].body, i + 1)
      case Some(j) => DestroyPlanet(DestroyPlanet(s, i), j)
      case None => s
  }

  function PairsUpTo(s: Scene, n: nat): (r: Scene)
    requires n <= |s.planets|
    ensures OnlyDestroys(s, r)
    ensures r.(planets := s.planets) == s
    decreases n
  {
    if n == 0 then s
    else
      var m := PairsUpTo(s, n - 1);
      OnlyDestroysTransitive(s, m, PairStep(m, n - 1));
      PairStep(m, n - 1)
  }

  /** Planet `i` is destroyed or overlaps no live later planet. */
  predicate Settled(s: Scene, i: nat)
    requires i < |s.planets|
  {
    s.planets[i].body.isDestroyed
    || forall j :: i < j < |s.planets| ==> !LiveHit(s.planets[i].body, s.planets[j].body)
  }

  /** Destroying things never unsettles a planet. */
  lemma SettledPersists(s: Scene, r: Scene, i: nat)
    requires OnlyDestroys(s, r) && i < |s.planets| && Settled(s, i)
    ensures Settled(r, i)
  {
    if !r.planets[i].body.isDestroyed {
      forall j | i < j < |r.planets|
        ensures !LiveHit(r.planets[i].body, r.planets[j].body)
      {
        assert PlanetLater(s, r, i) && PlanetLater(s, r, j);
        CollisionIgnoresFlags(s.planets[i].body, s.planets[j].body,
                              r.planets[i].body.isDestroyed, r.planets[j].body.isDestroyed);
      }
    }
  }

  predicate AllMortal(s: Scene) {
    forall k :: 0 <= k < |s.planets| ==> !s.planets[k].body.isImmortal
  }

  /** The outer iteration for a mortal planet `i` settles it. */
  lemma PairStepSettles(m: Scene, i: nat)
    requires i < |m.planets| && !m.planets[i].body.isImmortal
    ensures Settled(PairStep(m, i), i)
  {
    if !m.planets[i].body.isDestroyed {
      var h := FirstLiveHit(PlanetBodies(m.planets), m.planets[i].body, i + 1);
      if h.None? {
        var r := PairStep(m, i);
        assert r == m;
        forall j | i < j < |m.planets|
          ensures !LiveHit(m.planets[i].body, m.planets[j].body)
        {
          assert PlanetBodies(m.planets)[j] == m.planets[j].body;
        }
      }
    }
  }

  /** Destroying things keeps every planet's immortality. */
  lemma MortalityKept(s: Scene, r: Scene)
    requires OnlyDestroys(s, r) && AllMortal(s)
    ensures AllMortal(r)
  {
    forall k | 0 <= k < |r.planets|
      ensures !r.planets[k].body.isImmortal
    {
      assert PlanetLater(s, r, k);
    }
  }

  lemma {:induction false} PairsSettle(s: Scene, n: nat)
    requires n <= |s.planets| && AllMortal(s)
    ensures forall i :: 0 <= i < n ==> Settled(PairsUpTo(s, n), i)
    decreases n
  {
    if n > 0 {
      PairsSettle(s, n - 1);
      var m := PairsUpTo(s, n - 1);
      var r := PairsUpTo(s, n);
      assert r == PairStep(m, n - 1);
      MortalityKept(s, m);
      PairStepSettles(m, n - 1);
      forall i | 0 <= i < n - 1
        ensures Settled(r, i)
      {
        SettledPersists(m, r, i);
      }
    }
  }

  /**
   * When no planet is immortal, after the planet-planet pass no two live
   * planets overlap.
   */
  lemma NoLiveOverlapAfterPairs(s: Scene)
    requires AllMortal(s)
    ensures var r := PairsUpTo(s, PairBound(s));
      forall i, j :: 0 <= i < j < |r.planets| && !r.planets[i].body.isDestroyed ==>
        !LiveHit(r.planets[i].body, r.planets[j].body)
  {
    PairsSettle(s, PairBound(s));
    var r := PairsUpTo(s, PairBound(s));
    forall i, j | 0 <= i < j < |r.planets| && !r.planets[i].body.isDestroyed
      ensures !LiveHit(r.planets[i].body, r.planets[j].body)
    {
      assert i < PairBound(s) && Settled(r, i);
    }
  }

  /** `CheckCollisions`: power-ups first, then planets against suns, then planet pairs. */
  function Collisions(s: Scene, nowMs: int): (r: Scene)
    ensures OnlyDestroys(s, r) && TimeLimitKept(s, r)
  {
    var a := PowerUpsUpTo(s, |s.powerUps|, nowMs);
    var b := PlanetSunPass(a);
    OnlyDestroysTransitive(s, a, b);
    OnlyDestroysTransitive(s, b, PairsUpTo(b, PairBound(b)));
    PairsUpTo(b, PairBound(b))
  }

  // ---------------------------------------------------------------- safe zone

  /** `numSunsCloseEnough`: how many live suns among the first `n` are within `limit` of `b`. */
  function SunsInRange(b: Body, suns: seq<Sun>, limit: real, n: nat): nat
    requires n <= |suns|
    decreases n
  {
    if n == 0 then 0
    else SunsInRange(b, suns, limit, n - 1)
         + (if !suns[n - 1].body.isDestroyed && WithinDistance(b, suns[n - 1].body, limit) then 1 else 0)
  }

  /** No live sun close enough exactly when the count is zero. */
  lemma {:induction false} NoSunInRange(b: Body, suns: seq<Sun>, limit: real, n: nat)
    requires n <= |suns|
    ensures SunsInRange(b, suns, limit, n) == 0 <==>
      forall k :: 0 <= k < n ==> !(!suns[k].body.isDestroyed && WithinDistance(b, suns[k].body, limit))
    decreases n
  {
    if n > 0 {
      NoSunInRange(b, suns, limit, n - 1);
    }
  }

  /** A body that no live sun holds within the safe distance. */
  predicate Exiled(b: Body, s: Scene) {
    SunsInRange(b, s.suns, s.maxSafeDistance, |s.suns|) == 0
  }

  function ExilePlanet(p: Planet, s: Scene): Planet {
    if !p.body.isDestroyed && Exiled(p.body, s) then p.(body := SetDestroyed(p.body, true)) else p
  }

  /**
   * The planet loop of `CheckDistanceFromSuns`: a planet ends up destroyed
   * exactly when it was already, or it is mortal and no live sun lies within
   * the safe distance.
   */
  function ExilePlanets(s: Scene): (r: Scene)
    ensures OnlyDestroys(s, r)
    ensures r.(planets := s.planets) == s
    ensures forall k :: 0 <= k < |s.planets| ==>
      (r.planets[k].body.isDestroyed <==>
        s.planets[k].body.isDestroyed || (Exiled(s.planets[k].body, s) && !s.planets[k].body.isImmortal))
  {
    s.(planets := seq(|s.planets|, k requires 0 <= k < |s.planets| => ExilePlanet(s.planets[k], s)))
  }

  /**
   * One iteration of the power-up loop: a live power-up out of every live sun's
   * reach first runs `ApplyTooFar`, which may change the safe distance that
   * the next iterations read, and is then destroyed.
   */
  function ExilePowerUpStep(s: Scene, i: nat): (r: Scene)
    requires i < |s.powerUps|
    ensures OnlyDestroys(s, r) && TimeLimitKept(s, r)
    ensures r.suns == s.suns && r.planets == s.planets
  {
    var p := s.powerUps[i];
    if !p.body.isDestroyed && Exiled(p.body, s) then DestroyPowerUp(ApplyTooFar(s, p.effect), i) else s
  }

  function ExilePowerUpsUpTo(s: Scene, n: nat): (r: Scene)
    requires n <= |s.powerUps|
    ensures OnlyDestroys(s, r) && TimeLimitKept(s, r)
    ensures r.suns == s.suns && r.planets == s.planets
    decreases n
  {
    if n == 0 then s
    else
      var m := ExilePowerUpsUpTo(s, n - 1);
      OnlyDestroysTransitive(s, m, ExilePowerUpStep(m, n - 1));
      ExilePowerUpStep(m, n - 1)
  }

  /** `CheckDistanceFromSuns`: planets first, with the distance as it stood, then power-ups. */
  function CheckDistanceFromSuns(s: Scene): (r: Scene)
    ensures OnlyDestroys(s, r) && TimeLimitKept(s, r)
  {
    var a := ExilePlanets(s);
    OnlyDestroysTransitive(s, a, ExilePowerUpsUpTo(a, |a.powerUps|));
    ExilePowerUpsUpTo(a, |a.powerUps|)
  }

  /**
   * After the safe-zone pass every live mortal planet has a live sun within
   * the safe distance as it stood when the pass began.
   */
  lemma SurvivorsAreInRange(s: Scene)
    ensures var r := CheckDistanceFromSuns(s);
      forall k :: 0 <= k < |r.planets| && !r.planets[k].body.isDestroyed && !r.planets[k].body.isImmortal ==>
        exists m :: 0 <= m < |r.suns| && !r.suns[m].body.isDestroyed
                    && WithinDistance(r.planets[k].body, r.suns[m].body, s.maxSafeDistance)
  {
    var a := ExilePlanets(s);
    var r := CheckDistanceFromSuns(s);
    assert r.planets == a.planets && r.suns == s.suns;
    forall k | 0 <= k < |r.planets| && !r.planets[k].body.isDestroyed && !r.planets[k].body.isImmortal
      ensures exists m :: 0 <= m < |r.suns| && !r.suns[m].body.isDestroyed
                    && WithinDistance(r.planets[k].body, r.suns[m].body, s.maxSafeDistance)
    {
      assert !Exiled(s.planets[k].body, s);
      NoSunInRange(s.planets[k].body, s.suns, s.maxSafeDistance, |s.suns|);
      var m :| 0 <= m < |s.suns| && !s.suns[m].body.isDestroyed
               && WithinDistance(s.planets[k].body, s.suns[m].body, s.maxSafeDistance);
      assert WithinDistance(r.planets[k].body, r.suns[m].body, s.maxSafeDistance);
    }
  }

  // ---------------------------------------------------------------- the tick

  /** `Tick`: move, cull small planets, collisions, then the safe zone. */
  function Tick(s: Scene, nowMs: int): (r: Scene)
    ensures SameShape(s, r) && s.pending <= r.pending
  {
    var m := Move(s);
    var a := CheckRadii(m);
    var b := Collisions(a, nowMs);
    CheckDistanceFromSuns(b)
  }

  /**
   * After moving, a tick only sets destroyed flags: no object is revived, none
   * moves again, and the time limit never becomes negative.
   */
  lemma {:induction false} TickOnlyDestroys(s: Scene, nowMs: int)
    ensures OnlyDestroys(Move(s), Tick(s, nowMs))
    ensures TimeLimitKept(s, Tick(s, nowMs))
  {
    var a := CheckRadii(Move(s));
    var b := Collisions(a, nowMs);
    OnlyDestroysTransitive(Move(s), a, b);
    OnlyDestroysTransitive(Move(s), b, Tick(s, nowMs));
  }

  /**
   * Nothing destroyed before a tick is alive after it, and the keepers
   * subscribed before it are still subscribed, ahead of any new ones.
   */
  lemma TickNeverRevives(s: Scene, nowMs: int)
    ensures SameShape(s, Tick(s, nowMs)) && s.pending <= Tick(s, nowMs).pending
    ensures forall k :: 0 <= k < |s.suns| && s.suns[k].body.isDestroyed ==> Tick(s, nowMs).suns[k].body.isDestroyed
    ensures forall k :: 0 <= k < |s.planets| && s.planets[k].body.isDestroyed ==> Tick(s, nowMs).planets[k].body.isDestroyed
    ensures forall k :: 0 <= k < |s.powerUps| && s.powerUps[k].body.isDestroyed ==> Tick(s, nowMs).powerUps[k].body.isDestroyed
  {
    TickOnlyDestroys(s, nowMs);
    var m := Move(s);
    var r := Tick(s, nowMs);
    forall k | 0 <= k < |s.suns| && s.suns[k].body.isDestroyed
      ensures r.suns[k].body.isDestroyed
    {
      assert SunLater(m, r, k);
    }
    forall k | 0 <= k < |s.planets| && s.planets[k].body.isDestroyed
      ensures r.planets[k].body.isDestroyed
    {
      assert PlanetLater(m, r, k);
    }
    forall k | 0 <= k < |s.powerUps| && s.powerUps[k].body.isDestroyed
      ensures r.powerUps[k].body.isDestroyed
    {
      assert PowerUpLater(m, r, k);
    }
  }
}
