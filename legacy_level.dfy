/**
 * The older game's `Level` (ZapoctakProg2/Level.cs) and `PhysicsEngine`
 * (ZapoctakProg2/PhysicsEngine.cs) as classes whose methods change their
 * fields in place, with the hooks of `ReduceTimePowerUp` as methods that
 * change a level.
 *
 * The C# engine keeps references to its level's lists; here each engine
 * method is given that level as a parameter. Every method that changes
 * bodies is proved to leave exactly the scene that the matching function of
 * `LegacyPhysics` computes from the scene before it.
 */
module LegacyLevels {
  import opened Wrappers
  import opened Bodies
  import opened LevelInput
  import opened WinConditions
  import opened LegacyPhysics
  import opened LegacyReader
  import PowerUps
  import Int32
  import Physics
  import LevelReader
  import Levels

  /** The text the older level shows when it is lost; it names no requirement. */
  const EndLevelMessage: string := "Sorry, You Lose"

  // ---------------------------------------------------------------- hooks of ReduceTimePowerUp

  /** `powerUp.ApplySun(level, sun)`. */
  method ApplySunHook(level: Level, amount: int)
    modifies level`timeLimit
    ensures level.State() == ApplySun(old(level.State()), amount)
  {
    level.SetTimeLimit(Int32.Wrap(level.timeLimit - amount));
  }

  /** `powerUp.ApplyPlanet(level, planets[k])`: the `switch` on the planet's type. */
  method ApplyPlanetHook(level: Level, amount: int, k: nat)
    requires k < |level.planets|
    modifies level`timeLimit
    ensures level.State() == ApplyPlanet(old(level.State()), amount, k)
  {
    var kind := level.planets[k].kind;
    if kind == Good {
      level.SetTimeLimit(Int32.Wrap(level.timeLimit - amount));
    } else if kind == Bad {
      level.SetTimeLimit(Int32.Wrap(level.timeLimit + amount));
    }
  }

  /**
   * `powerUp.ApplyPowerup(level, powerUps[j])`: the type test on the other
   * power-up passes, since every power-up of the older game is a
   * `ReduceTimePowerUp`.
   */
  method ApplyPowerupHook(level: Level, amount: int, j: nat)
    requires j < |level.powerUps|
    modifies level`timeLimit
    ensures level.State() == ApplyPowerup(old(level.State()), amount)
  {
    level.SetTimeLimit(Int32.Wrap(level.timeLimit - PowerUps.CeilThreeHalvesToInt(amount)));
  }

  // ---------------------------------------------------------------- the engine

  class PhysicsEngine {
    const maxDistance: real
    const minGravity: int
    const maxGravity: int
    var gravityConst: int

    /** The engine built from the physics lines of a level file. */
    constructor (settings: PhysicsSettings)
      ensures maxDistance == settings.maxDistance && gravityConst == settings.gravityConst
      ensures minGravity == settings.minGravity && maxGravity == settings.maxGravity
    {
      maxDistance := settings.maxDistance;
      gravityConst := settings.gravityConst;
      minGravity := settings.minGravity;
      maxGravity := settings.maxGravity;
    }

    /** The engine as `ReadPhysicsEngine` builds it again from the same lines: only the gravity can differ. */
    method Reload(settings: PhysicsSettings)
      modifies this`gravityConst
      ensures gravityConst == settings.gravityConst
    {
      gravityConst := settings.gravityConst;
    }

    /** The `GravityConst` setter. */
    method SetGravityConst(value: int)
      modifies this`gravityConst
      ensures gravityConst == value
    {
      gravityConst := value;
    }

    /** `Tick`: move, cull small planets, crashes, then the safe zone. */
    method Tick(level: Level)
      requires level.physics == this
      modifies level`planets, level`powerUps, level`timeLimit
      ensures level.State() == LegacyPhysics.Tick(old(level.State()), maxDistance)
    {
      UpdatePositions(level);
      CheckRadii(level);
      CheckCrashes(level);
      CheckDistanceFromSuns(level);
    }

    /** `UpdatePositions`, with the two `Parallel.ForEach` loops run one body at a time. */
    method UpdatePositions(level: Level)
      requires level.physics == this
      modifies level`planets, level`powerUps
      ensures level.State() == Move(old(level.State()))
    {
      ghost var target := Move(level.State());
      var n := |level.planets|;
      for k := 0 to n
        invariant |level.planets| == n
        invariant forall j :: 0 <= j < k ==> level.planets[j] == target.planets[j]
        invariant forall j :: k <= j < n ==> level.planets[j] == old(level.planets[j])
        invariant level.powerUps == old(level.powerUps)
      {
        var p := level.planets[k];
        if !p.body.isDestroyed {
          level.planets := level.planets[k := p.(body := UpdatePosition(p.body))];
        }
      }
      var m := |level.powerUps|;
      for k := 0 to m
        invariant |level.powerUps| == m
        invariant forall j :: 0 <= j < k ==> level.powerUps[j] == target.powerUps[j]
        invariant forall j :: k <= j < m ==> level.powerUps[j] == old(level.powerUps[j])
        invariant level.planets == target.planets
      {
        var p := level.powerUps[k];
        if !p.body.isDestroyed {
          level.powerUps := level.powerUps[k := p.(body := UpdatePosition(p.body))];
        }
      }
    }

    /** `CheckRadii`: every planet below the minimum radius is set destroyed. */
    method CheckRadii(level: Level)
      requires level.physics == this
      modifies level`planets
      ensures level.State() == LegacyPhysics.CheckRadii(old(level.State()))
    {
      ghost var target := LegacyPhysics.CheckRadii(level.State());
      var n := |level.planets|;
      for k := 0 to n
        invariant |level.planets| == n
        invariant forall j :: 0 <= j < k ==> level.planets[j] == target.planets[j]
        invariant forall j :: k <= j < n ==> level.planets[j] == old(level.planets[j])
      {
        var p := level.planets[k];
        if p.body.radius < MinimumRadius {
          level.planets := level.planets[k := p.(body := p.body.(isDestroyed := true))];
        }
      }
    }

    /** `CheckCrashes`: power-ups first, then planets against suns, then planet pairs. */
    method CheckCrashes(level: Level)
      requires level.physics == this
      modifies level`planets, level`powerUps, level`timeLimit
      ensures level.State() == Crashes(old(level.State()))
    {
      CheckPowerUps(level);
      CheckPlanetsAgainstSuns(level);
      CheckPlanetPairs(level);
    }

    /** `CheckPowerUps`: one step per power-up, in index order. */
    method CheckPowerUps(level: Level)
      requires level.physics == this
      modifies level`powerUps, level`timeLimit
      ensures level.State() == PowerUpsUpTo(old(level.State()), |old(level.powerUps)|)
    {
      ghost var s := level.State();
      var n := |level.powerUps|;
      for i := 0 to n
        invariant |level.powerUps| == n
        invariant level.State() == PowerUpsUpTo(s, i)
      {
        PowerUpStepAt(level, i);
      }
    }

    /**
     * One iteration of `CheckPowerUps`: the first live sun hit, else the
     * first live planet hit, else the first live later power-up hit fires
     * this power-up's hook, and the power-up is destroyed; the goto skips the
     * rest.
     */
    method PowerUpStepAt(level: Level, i: nat)
      requires level.physics == this && i < |level.powerUps|
      modifies level`powerUps, level`timeLimit
      ensures level.State() == PowerUpStep(old(level.State()), i)
    {
      var powerUp := level.powerUps[i];
      if powerUp.body.isDestroyed {
        return;
      }
      var hit := Levels.FindLiveHit(SunBodies(level.suns), powerUp.body, 0);
      if hit.Some? {
        ApplySunHook(level, powerUp.reduceAmount);
        level.DestroyPowerUp(i);
        return;
      }
      hit := Levels.FindLiveHit(PlanetBodies(level.planets), powerUp.body, 0);
      if hit.Some? {
        ApplyPlanetHook(level, powerUp.reduceAmount, hit.value);
        level.DestroyPowerUp(i);
        return;
      }
      hit := Levels.FindLiveHit(PowerUpBodies(level.powerUps), powerUp.body, i + 1);
      if hit.Some? {
        ApplyPowerupHook(level, powerUp.reduceAmount, hit.value);
        level.DestroyPowerUp(i);
      }
    }

    /** The planet-sun loop: a planet overlapping any sun is set destroyed. */
    method CheckPlanetsAgainstSuns(level: Level)
      requires level.physics == this
      modifies level`planets
      ensures level.State() == PlanetSunPass(old(level.State()))
    {
      ghost var target := PlanetSunPass(level.State());
      var n := |level.planets|;
      for k := 0 to n
        invariant |level.planets| == n
        invariant forall j :: 0 <= j < k ==> level.planets[j] == target.planets[j]
        invariant forall j :: k <= j < n ==> level.planets[j] == old(level.planets[j])
      {
        var p := level.planets[k];
        var hit := Levels.OverlapsSomeSun(p.body, level.suns);
        if hit {
          level.planets := level.planets[k := p.(body := p.body.(isDestroyed := true))];
        }
      }
    }

    /** The planet-planet loop, `for (i = 0; i < planets.Count - 1; i++)`. */
    method CheckPlanetPairs(level: Level)
      requires level.physics == this
      modifies level`planets
      ensures level.State() == PairsUpTo(old(level.State()), PairBound(old(level.State())))
    {
      ghost var s := level.State();
      var n := |level.planets|;
      var bound := if n == 0 then 0 else n - 1;
      for i := 0 to bound
        invariant |level.planets| == n
        invariant level.State() == PairsUpTo(s, i)
      {
        PairStepAt(level, i);
      }
    }

    /** One outer iteration: a live planet and the first live later planet it overlaps are destroyed. */
    method PairStepAt(level: Level, i: nat)
      requires level.physics == this && i < |level.planets|
      modifies level`planets
      ensures level.State() == PairStep(old(level.State()), i)
    {
      var p := level.planets[i];
      if p.body.isDestroyed {
        return;
      }
      var hit := Levels.FindLiveHit(PlanetBodies(level.planets), p.body, i + 1);
      if hit.Some? {
        level.DestroyPlanet(i);
        level.DestroyPlanet(hit.value);
      }
    }

    /** `numSunsCloseEnough` for one body. */
    method CountSunsInRange(level: Level, b: Body) returns (count: nat)
      requires level.physics == this
      ensures count == Physics.SunsInRange(b, level.suns, maxDistance, |level.suns|)
    {
      count := 0;
      for m := 0 to |level.suns|
        invariant count == Physics.SunsInRange(b, level.suns, maxDistance, m)
      {
        if !level.suns[m].body.isDestroyed && WithinDistance(b, level.suns[m].body, maxDistance) {
          count := count + 1;
        }
      }
    }

    /**
     * `CheckDistanceFromSuns`: the planet loop, then the power-up loop, whose
     * `ApplyTooFar` has an empty body.
     */
    method CheckDistanceFromSuns(level: Level)
      requires level.physics == this
      modifies level`planets, level`powerUps
      ensures level.State() == LegacyPhysics.CheckDistanceFromSuns(old(level.State()), maxDistance)
    {
      ghost var s := level.State();
      ghost var target := LegacyPhysics.CheckDistanceFromSuns(s, maxDistance);
      var n := |level.planets|;
      for k := 0 to n
        invariant |level.planets| == n && level.suns == s.suns
        invariant level.powerUps == s.powerUps && level.timeLimit == s.timeLimit
        invariant forall j :: 0 <= j < k ==> level.planets[j] == target.planets[j]
        invariant forall j :: k <= j < n ==> level.planets[j] == s.planets[j]
      {
        var p := level.planets[k];
        if !p.body.isDestroyed {
          var count := CountSunsInRange(level, p.body);
          if count == 0 {
            level.planets := level.planets[k := p.(body := p.body.(isDestroyed := true))];
          }
        }
      }
      var m := |level.powerUps|;
      for k := 0 to m
        invariant |level.powerUps| == m && level.suns == s.suns
        invariant level.planets == target.planets && level.timeLimit == s.timeLimit
        invariant forall j :: 0 <= j < k ==> level.powerUps[j] == target.powerUps[j]
        invariant forall j :: k <= j < m ==> level.powerUps[j] == s.powerUps[j]
      {
        var p := level.powerUps[k];
        if !p.body.isDestroyed {
          var count := CountSunsInRange(level, p.body);
          if count == 0 {
            level.powerUps := level.powerUps[k := p.(body := p.body.(isDestroyed := true))];
          }
        }
      }
    }
  }

  // ---------------------------------------------------------------- the level

  class Level {
    const previousLevel: Level?
    const currentPath: string
    const env: Environment
    /** What the level file held when the level was created; `Reset` loads it again. */
    const data: LevelData
    var nextLevel: Level?
    var nextLevelPath: Option<string>
    var suns: seq<Sun>
    var planets: seq<Planet>
    var powerUps: seq<PowerUp>
    /**
     * The engine and the count array. `InitLevel` builds new ones in the
     * source; nothing else keeps the old ones, so here the same objects are
     * set back to their initial state instead.
     */
    const physics: PhysicsEngine
    var scaleFactor: real
    var timeLimit: int
    const planetCountByType: array<int>
    var goals: seq<LevelReader.Goal>
    var description: string
    var isRunning: bool
    var isEnded: bool

    /** The engine has the file's fixed settings and the count array has a slot per planet type. */
    predicate Valid() {
      planetCountByType.Length == 3
      && physics.maxDistance == data.physics.maxDistance
      && physics.minGravity == data.physics.minGravity && physics.maxGravity == data.physics.maxGravity
    }

    /** The part of the level the engine and the hooks change. */
    function State(): Scene
      reads this`suns, this`planets, this`powerUps, this`timeLimit
    {
      Scene(suns, planets, powerUps, timeLimit)
    }

    /** Lists, numbers, goals, description and gravity are those of the level file. */
    predicate Loaded()
      reads this, physics
    {
      suns == data.suns && planets == data.planets && powerUps == data.powerUps
      && scaleFactor == data.scaleFactor && timeLimit == data.timeLimit
      && goals == data.goals && nextLevelPath == data.nextLevelPath && description == data.description
      && physics.gravityConst == data.physics.gravityConst
    }

    predicate IsFirstLevel() {
      previousLevel == null
    }

    predicate IsLastLevel()
      reads this`nextLevelPath
    {
      nextLevelPath.None?
    }

    /** A level loaded from `data`, stopped and not ended. */
    constructor (previous: Level?, path: string, env: Environment, data: LevelData)
      ensures Valid() && Loaded() && fresh(physics) && fresh(planetCountByType)
      ensures previousLevel == previous && currentPath == path && this.env == env && this.data == data
      ensures nextLevel == null && !isRunning && !isEnded
      ensures planetCountByType[..] == [0, 0, 0]
    {
      previousLevel := previous;
      currentPath := path;
      this.env := env;
      this.data := data;
      nextLevel := null;
      isRunning := false;
      isEnded := false;
      physics := new PhysicsEngine(data.physics);
      planetCountByType := new int[3];
      new;
      InitLevel();
    }

    /**
     * `InitLevel`: a zeroed count array, then everything `ReadLevelInput`
     * reads; the description is replaced, not extended.
     */
    method InitLevel()
      requires Valid()
      modifies this`suns, this`planets, this`powerUps, this`scaleFactor, this`timeLimit,
               this`goals, this`nextLevelPath, this`description, physics`gravityConst, planetCountByType
      ensures Valid() && Loaded() && planetCountByType[..] == [0, 0, 0]
    {
      planetCountByType[0], planetCountByType[1], planetCountByType[2] := 0, 0, 0;
      physics.Reload(data.physics);
      suns, planets, powerUps := data.suns, data.planets, data.powerUps;
      scaleFactor, timeLimit := data.scaleFactor, data.timeLimit;
      goals, nextLevelPath := data.goals, data.nextLevelPath;
      description := data.description;
    }

    /** `Tick`: the engine's tick (drawing and the time label are not modelled). */
    method Tick()
      requires Valid()
      modifies this`planets, this`powerUps, this`timeLimit
      ensures State() == LegacyPhysics.Tick(old(State()), physics.maxDistance)
    {
      physics.Tick(this);
    }

    /** The `TimeLimit` setter. */
    method SetTimeLimit(value: int)
      modifies this`timeLimit
      ensures State() == LegacyPhysics.SetTimeLimit(old(State()), value)
    {
      timeLimit := PowerUps.ClampTimeLimit(value);
    }

    /** The corrected `CheckTimeLimit`, with the product taken without wrap-around. */
    method CheckTimeLimit(elapsedMs: int) returns (r: bool)
      ensures r == Levels.TimeIsUp(elapsedMs, timeLimit)
    {
      r := elapsedMs > 1000 * timeLimit;
    }

    method Start()
      modifies this`isRunning
      ensures isRunning
    {
      isRunning := true;
    }

    method Stop()
      modifies this`isRunning
      ensures !isRunning
    {
      isRunning := false;
    }

    /** `End`: stops the level for good. */
    method End()
      modifies this`isRunning, this`isEnded
      ensures !isRunning && isEnded
    {
      Stop();
      isEnded := true;
    }

    /** `Reset`: stopped, not ended, the file loaded again; the links stay. */
    method Reset()
      requires Valid()
      modifies this`suns, this`planets, this`powerUps, this`scaleFactor, this`timeLimit,
               this`goals, this`nextLevelPath, this`description, this`isRunning, this`isEnded,
               physics`gravityConst, planetCountByType
      ensures Valid() && Loaded() && planetCountByType[..] == [0, 0, 0]
      ensures !isRunning && !isEnded
    {
      Stop();
      isEnded := false;
      InitLevel();
    }

    /**
     * `NextLevel`: none without a next path; otherwise the level built on the
     * first request, with this level as its previous one, and the same object
     * on every later request. A file that fails to load builds nothing.
     */
    method NextLevel() returns (r: Result<Level?, Fault>)
      modifies this`nextLevel
      ensures nextLevelPath.None? ==> r == Success(null) && nextLevel == old(nextLevel)
      ensures nextLevelPath.Some? && old(nextLevel) != null ==> r == Success(old(nextLevel)) && nextLevel == old(nextLevel)
      ensures nextLevelPath.Some? && old(nextLevel) == null ==>
        (r.Success? <==> LoadLevel(env, nextLevelPath.value).Success?)
        && (r.Failure? ==> r.error == LoadLevel(env, nextLevelPath.value).error && nextLevel == null)
        && (r.Success? ==>
              (r.value == nextLevel && nextLevel != null && fresh(nextLevel) && nextLevel.Valid()
               && nextLevel.nextLevel == null && !nextLevel.isRunning && !nextLevel.isEnded
               && nextLevel.previousLevel == this && nextLevel.currentPath == nextLevelPath.value
               && nextLevel.data == LoadLevel(env, nextLevelPath.value).value && nextLevel.env == env
               && nextLevel.Loaded()))
    {
      if nextLevelPath.None? {
        return Success(null);
      }
      if nextLevel != null {
        return Success(nextLevel);
      }
      var loaded := ReadLevelInput(env, nextLevelPath.value);
      if loaded.Failure? {
        return Failure(loaded.error);
      }
      var level := new Level(this, nextLevelPath.value, env, loaded.value);
      nextLevel := level;
      return Success(level);
    }

    /** The engine's `powerUp.IsDestroyed = true`. */
    method DestroyPowerUp(i: nat)
      requires i < |powerUps|
      modifies this`powerUps
      ensures State() == LegacyPhysics.DestroyPowerUp(old(State()), i)
    {
      powerUps := powerUps[i := powerUps[i].(body := powerUps[i].body.(isDestroyed := true))];
    }

    /** The engine's `planets[k].IsDestroyed = true`. */
    method DestroyPlanet(k: nat)
      requires k < |planets|
      modifies this`planets
      ensures State() == LegacyPhysics.DestroyPlanet(old(State()), k)
    {
      planets := planets[k := planets[k].(body := planets[k].body.(isDestroyed := true))];
    }

    /** The corrected `UpdatePlanetCountType`: the array is zeroed before the live planets are counted. */
    method UpdatePlanetCountType() returns (ok: bool)
      requires Valid()
      modifies planetCountByType
      ensures ok <==> Levels.AllLiveDeclared(planets)
      ensures ok ==> planetCountByType[..] == Levels.Tally(planets)
    {
      ok := Levels.CountByType(planetCountByType, planets);
    }

    /**
     * `CheckVictory`: the conditions in order, false at the first that fails
     * and true when none does. `None` stands for an exception: a live planet
     * of an undeclared type, or a condition that throws before the first
     * failure.
     */
    method CheckVictory() returns (r: Option<bool>)
      requires Valid()
      modifies planetCountByType
      ensures Levels.AllLiveDeclared(planets) ==> planetCountByType[..] == Levels.Tally(planets)
      ensures !Levels.AllLiveDeclared(planets) ==> r.None?
      ensures Levels.AllLiveDeclared(planets) ==>
        r == AllHold(Levels.Conditions(goals), Levels.Tally(planets), |planets|)
    {
      var ok := UpdatePlanetCountType();
      if !ok {
        return None;
      }
      var counts := planetCountByType[..];
      var conds := Levels.Conditions(goals);
      for i := 0 to |conds|
        invariant AllHold(conds, counts, |planets|) == AllHold(conds[i..], counts, |planets|)
      {
        assert conds[i..][0] == conds[i] && conds[i..][1..] == conds[i + 1..];
        var holds := Holds(conds[i], counts, |planets|);
        if holds.None? {
          return None;
        }
        if !holds.value {
          return Some(false);
        }
      }
      assert conds[|conds|..] == [];
      return Some(true);
    }
  }
}
