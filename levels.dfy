/**
 * The newer game's `Level` (Zapoctak.Net1/Level.cs) and `PhysicsEngine`
 * (Zapoctak.Net1/PhysicsEngine.cs) as classes whose methods change their
 * fields in place, and the power-up hooks as methods that change a level.
 *
 * A level owns the three body lists, the time limit, the pending
 * `TimeKeeper`s and its engine. The C# engine keeps a reference to its level
 * and works on the level's `List` objects; here each engine method is given
 * that level as a parameter and may change its lists. Every method that
 * changes bodies is proved to leave exactly the scene that the matching
 * function of `Physics` or `PowerUps` computes from the scene before it.
 */
module Levels {
  import opened Wrappers
  import opened Bodies
  import opened PowerUps
  import Physics
  import opened LevelInput
  import opened LevelReader
  import opened WinConditions
  import Int32

  const FirstLevelPath: string := LevelPath + "level1.txt"
  const WinMessage: string := "Congratulations, You Win!"
  const LoseHeader: string := "Sorry, You Lose - Failed Requirements: "
  const RequirementsHeader: string := "Level requirements: \n"

  /**
   * What a level reads from outside: the files by path (`None` for a file that
   * does not exist), the runtime's number parsers, the registry of power-up
   * parsers and the lambda parser of the expression library.
   */
  datatype Environment = Environment(files: string -> Option<seq<string>>,
                                     parseInt: string -> Option<int>,
                                     parseReal: string -> Option<real>,
                                     registry: map<string, Parser>,
                                     parseLambda: Lambda -> Option<Expr>)

  function RuntimeOf(env: Environment): Runtime {
    Runtime(env.registry, env.parseLambda, (p: string) => env.files(p).Some?)
  }

  /**
   * `Level.ReadLevelInput` on the file at `path`. Opening a missing file
   * throws before the `try`, and only an `IOException` is caught, so every
   * fault ends the load.
   */
  function LoadLevel(env: Environment, path: string): Result<LevelData, Fault> {
    match env.files(path)
    case None => Failure(MissingFile(path))
    case Some(lines) => LevelFile(Source(lines, env.parseInt, env.parseReal), RuntimeOf(env))
  }

  /** The reads of `ReadLevelInput`, in file order, through one reader. */
  method ReadLevelFile(reader: LevelInputReader, rt: Runtime) returns (r: Result<LevelData, Fault>)
    requires reader.position == 0 && reader.listCapacity
    modifies reader`position
    ensures r == LevelFile(reader.src, rt)
  {
    var planets := reader.ReadPlanets();
    if planets.Failure? { return Failure(planets.error); }
    var suns := reader.ReadSuns();
    if suns.Failure? { return Failure(suns.error); }
    var powerUps := ReadPowerUps(reader, rt.registry);
    if powerUps.Failure? { return Failure(powerUps.error); }
    var physics := reader.ReadPhysicsEngine();
    if physics.Failure? { return Failure(physics.error); }
    var scale := reader.ReadGraphicsEngine();
    if scale.Failure? { return Failure(scale.error); }
    var time := reader.ReadTimeLimit();
    if time.Failure? { return Failure(time.error); }
    var goals := ReadWinConditions(reader, rt.parseLambda);
    if goals.Failure? { return Failure(goals.error); }
    var next := reader.ReadNextLevelPath(rt.fileExists);
    if next.Failure? { return Failure(next.error); }
    var text := reader.ReadDescription();
    if text.Failure? { return Failure(text.error); }
    return Success(LevelData(planets.value, suns.value, powerUps.value, physics.value, scale.value,
                             time.value, goals.value, next.value, text.value));
  }

  /** Opens the file at `path` and reads it as `ReadLevelInput` does. */
  method ReadLevelInput(env: Environment, path: string) returns (r: Result<LevelData, Fault>)
    ensures r == LoadLevel(env, path)
  {
    var lines := env.files(path);
    if lines.None? {
      return Failure(MissingFile(path));
    }
    var reader := new LevelInputReader(Source(lines.value, env.parseInt, env.parseReal), true);
    r := ReadLevelFile(reader, RuntimeOf(env));
  }

  /** `ConcatDescription`: every goal's text on a line of its own. */
  function GoalLines(goals: seq<Goal>): string
    decreases |goals|
  {
    if |goals| == 0 then "" else GoalLines(goals[..|goals| - 1]) + goals[|goals| - 1].description + NewLine
  }

  function Conditions(goals: seq<Goal>): (r: seq<Condition>)
    ensures |r| == |goals| && forall i :: 0 <= i < |goals| ==> r[i] == goals[i].condition
  {
    seq(|goals|, i requires 0 <= i < |goals| => goals[i].condition)
  }

  function Descriptions(goals: seq<Goal>): (r: seq<string>)
    ensures |r| == |goals| && forall i :: 0 <= i < |goals| ==> r[i] == goals[i].description
  {
    seq(|goals|, i requires 0 <= i < |goals| => goals[i].description)
  }

  // ---------------------------------------------------------------- planet counts

  /** How many planets of `ps` are alive and of type `t`. */
  function CountKind(ps: seq<Planet>, t: PlanetType): nat
    decreases |ps|
  {
    if |ps| == 0 then 0
    else CountKind(ps[..|ps| - 1], t) + (if !ps[|ps| - 1].body.isDestroyed && ps[|ps| - 1].kind == t then 1 else 0)
  }

  /** The live planets by type, indexed by the `PlanetType` value. */
  function Tally(ps: seq<Planet>): (c: seq<int>)
    ensures |c| == 3
  {
    [CountKind(ps, Good), CountKind(ps, Neutral), CountKind(ps, Bad)]
  }

  /** Every live planet has a type that indexes the count array. */
  predicate AllLiveDeclared(ps: seq<Planet>) {
    forall k :: 0 <= k < |ps| && !ps[k].body.isDestroyed ==> IsDeclaredType(ps[k].kind)
  }

  function LiveCount(ps: seq<Planet>): nat
    decreases |ps|
  {
    if |ps| == 0 then 0 else LiveCount(ps[..|ps| - 1]) + (if ps[|ps| - 1].body.isDestroyed then 0 else 1)
  }

  /** When every live planet has a declared type, the three counts add up to the live planets. */
  lemma {:induction false} TallyCountsLivePlanets(ps: seq<Planet>)
    requires AllLiveDeclared(ps)
    ensures Tally(ps)[0] + Tally(ps)[1] + Tally(ps)[2] == LiveCount(ps)
    decreases |ps|
  {
    if |ps| > 0 {
      var front := ps[..|ps| - 1];
      assert AllLiveDeclared(front) by {
        forall k | 0 <= k < |front| && !front[k].body.isDestroyed
          ensures IsDeclaredType(front[k].kind)
        {
          assert front[k] == ps[k];
        }
      }
      TallyCountsLivePlanets(front);
    }
  }

  /** One more planet adds one to its own type's count, if it is alive, and to no other. */
  lemma TallyStep(ps: seq<Planet>, k: nat)
    requires k < |ps|
    ensures ps[..k + 1][..k] == ps[..k]
    ensures forall t :: (CountKind(ps[..k + 1], t) ==
                         CountKind(ps[..k], t) + (if !ps[k].body.isDestroyed && ps[k].kind == t then 1 else 0))
  {
    assert ps[..k + 1][..k] == ps[..k];
  }

  /**
   * `UpdatePlanetCountByType` as written: `Initialize()` leaves an `int[]` as
   * it was, so the live planets are added onto whatever the array held.
   */
  function CountedAsWritten(before: seq<int>, ps: seq<Planet>): (c: seq<int>)
    requires |before| == 3
    ensures |c| == 3
  {
    [before[0] + CountKind(ps, Good), before[1] + CountKind(ps, Neutral), before[2] + CountKind(ps, Bad)]
  }

  /**
   * Counting a second time on the same array doubles every count: with one
   * live Good planet the second count says two.
   */
  lemma RecountDoubles(p: Planet)
    requires !p.body.isDestroyed && p.kind == Good
    ensures Tally([p])[Good] == 1
    ensures CountedAsWritten(CountedAsWritten([0, 0, 0], [p]), [p])[Good] == 2
  {
    assert [p][..0] == [];
    assert CountKind([p], Good) == 1;
  }

  /**
   * The goals judged on `planets` as `CheckVictory` judges them: the counts of
   * live planets by type and the number of planets, destroyed ones included.
   */
  function Verdict(goals: seq<Goal>, planets: seq<Planet>): Judgement {
    Judge(Conditions(goals), Descriptions(goals), Tally(planets), |planets|, |goals|)
  }

  // ---------------------------------------------------------------- time limit

  /** `CheckTimeLimit` as written: `1000 * timeLimit` is an unchecked 32-bit product. */
  predicate TimeIsUpAsWritten(elapsedMs: int, timeLimit: int) {
    elapsedMs > Int32.Wrap(1000 * timeLimit)
  }

  /** The intended test: more milliseconds have passed than the limit holds. */
  predicate TimeIsUp(elapsedMs: int, timeLimit: int) {
    elapsedMs > 1000 * timeLimit
  }

  /** A limit of 2147484 seconds wraps to a negative product, so time is up at once. */
  lemma WrappedLimitEndsAtOnce()
    ensures TimeIsUpAsWritten(0, 2147484)
    ensures !TimeIsUp(0, 2147484)
  {
    assert 1000 * 2147484 == 2147484000;
    assert Int32.Wrap(2147484000) == 2147484000 - Int32.Modulus;
  }

  /**
   * The two agree while the product fits in 32 bits; the intended test is
   * never up before the limit and stays up once it is.
   */
  lemma TimeIsUpMeaning(elapsedMs: int, laterMs: int, timeLimit: int)
    requires elapsedMs <= laterMs
    ensures Int32.InRange(1000 * timeLimit) ==> (TimeIsUpAsWritten(elapsedMs, timeLimit) <==> TimeIsUp(elapsedMs, timeLimit))
    ensures 0 <= elapsedMs <= 1000 * timeLimit ==> !TimeIsUp(elapsedMs, timeLimit)
    ensures TimeIsUp(elapsedMs, timeLimit) ==> TimeIsUp(laterMs, timeLimit)
  {
  }

  // ---------------------------------------------------------------- searches

  /** A `foreach` over `targets` from `from` that skips destroyed ones and stops at the first overlap. */
  method FindLiveHit(targets: seq<Body>, b: Body, from: nat) returns (r: Option<nat>)
    requires from <= |targets|
    ensures r == FirstLiveHit(targets, b, from)
  {
    var k := from;
    while k < |targets|
      invariant from <= k <= |targets|
      invariant FirstLiveHit(targets, b, k) == FirstLiveHit(targets, b, from)
      decreases |targets| - k
    {
      if !targets[k].isDestroyed && HasCollidedWith(b, targets[k]) {
        return Some(k);
      }
      k := k + 1;
    }
    return None;
  }

  /** The inner `foreach` of the planet-sun loop, which breaks at the first overlapping sun. */
  method OverlapsSomeSun(b: Body, suns: seq<Sun>) returns (r: bool)
    ensures r == Physics.OverlapsAnySun(b, suns)
  {
    for m := 0 to |suns|
      invariant forall q :: 0 <= q < m ==> !HasCollidedWith(b, suns[q].body)
    {
      if HasCollidedWith(b, suns[m].body) {
        return true;
      }
    }
    return false;
  }

  /**
   * The corrected count of both generations' `UpdatePlanetCountByType`: the
   * array is zeroed, then each live planet adds one to its type's slot. A
   * live planet whose type value is not a declared member indexes past the
   * array, which throws.
   */
  method CountByType(counts: array<int>, planets: seq<Planet>) returns (ok: bool)
    requires counts.Length == 3
    modifies counts
    ensures ok <==> AllLiveDeclared(planets)
    ensures ok ==> counts[..] == Tally(planets)
  {
    counts[0], counts[1], counts[2] := 0, 0, 0;
    for k := 0 to |planets|
      invariant counts[..] == Tally(planets[..k])
      invariant AllLiveDeclared(planets[..k])
    {
      TallyStep(planets, k);
      var p := planets[k];
      if !p.body.isDestroyed {
        if !IsDeclaredType(p.kind) {
          return false;
        }
        counts[p.kind] := counts[p.kind] + 1;
      }
      assert planets[..k + 1][k] == p;
    }
    assert planets[..|planets|] == planets;
    return true;
  }

  /**
   * The scene after the timer has raised its tick for the first `count`
   * subscribed keepers: those that unsubscribe leave the list, the rest keep
   * their places ahead of the keepers subscribed later.
   */
  function AfterKeepers(s: Scene, count: nat, levelEnded: bool, nowMs: int): Scene
    requires count <= |s.pending|
  {
    var run := RunKeepers(s, s.pending[..count], levelEnded, nowMs);
    run.0.(pending := run.1 + s.pending[count..])
  }

  /**
   * On an ended level the keepers only unsubscribe; on a running one the
   * keepers still waiting stay, in order, and every keeper past its deadline
   * has its target alive again.
   */
  lemma AfterKeepersMeaning(s: Scene, count: nat, nowMs: int)
    requires count <= |s.pending|
    ensures AfterKeepers(s, count, true, nowMs) == s.(pending := s.pending[count..])
    ensures AfterKeepers(s, count, false, nowMs).pending == Waiting(s.pending[..count], nowMs) + s.pending[count..]
    ensures forall i :: 0 <= i < count && nowMs > s.pending[i].endTimeMs ==>
      !IsDestroyed(AfterKeepers(s, count, false, nowMs), s.pending[i].target)
  {
    EndedLevelDropsKeepers(s, s.pending[..count], nowMs);
    RunningKeepers(s, s.pending[..count], nowMs);
    var r := AfterKeepers(s, count, false, nowMs);
    var run := RunKeepers(s, s.pending[..count], false, nowMs);
    forall i | 0 <= i < count && nowMs > s.pending[i].endTimeMs
      ensures !IsDestroyed(r, s.pending[i].target)
    {
      assert s.pending[..count][i] == s.pending[i];
      assert !IsDestroyed(run.0, s.pending[i].target);
    }
  }

  // ---------------------------------------------------------------- hooks

  /** `powerUp.ApplySun(level, suns[k])` for a power-up with effect `e`. */
  method ApplySunHook(level: Level, e: Effect, k: nat, nowMs: int)
    requires k < |level.suns|
    modifies level`suns, level`planets, level`powerUps, level`timeLimit, level`pending, level.physics`maxSafeDistance
    ensures level.State() == ApplySun(old(level.State()), e, k, nowMs)
  {
    match e
    case ReduceTime(amount) => level.SetTimeLimit(Int32.Wrap(level.timeLimit - amount));
    case ExtendSafeZone(factor) => level.physics.maxSafeDistance := level.physics.maxSafeDistance * factor;
    case TemporaryDestroy(duration) => level.DestroyForAWhile(SunTarget(k), nowMs, duration);
  }

  /** `powerUp.ApplyPlanet(level, planets[k])` for a power-up with effect `e`. */
  method ApplyPlanetHook(level: Level, e: Effect, k: nat, nowMs: int)
    requires k < |level.planets|
    modifies level`suns, level`planets, level`powerUps, level`timeLimit, level`pending, level.physics`maxSafeDistance
    ensures level.State() == ApplyPlanet(old(level.State()), e, k, nowMs)
  {
    match e
    case ReduceTime(amount) =>
      var kind := level.planets[k].kind;
      if kind == Good {
        level.SetTimeLimit(Int32.Wrap(level.timeLimit - amount));
      } else if kind == Bad {
        level.SetTimeLimit(Int32.Wrap(level.timeLimit + amount));
      }
    case ExtendSafeZone(factor) => level.physics.maxSafeDistance := level.physics.maxSafeDistance * factor;
    case TemporaryDestroy(duration) => level.DestroyForAWhile(PlanetTarget(k), nowMs, duration);
  }

  /** `powerUp.ApplyPowerup(level, powerUps[j])` for a power-up with effect `e`. */
  method ApplyPowerupHook(level: Level, e: Effect, j: nat, nowMs: int)
    requires j < |level.powerUps|
    modifies level`suns, level`planets, level`powerUps, level`timeLimit, level`pending, level.physics`maxSafeDistance
    ensures level.State() == ApplyPowerup(old(level.State()), e, j, nowMs)
  {
    match e
    case ReduceTime(amount) =>
      if level.powerUps[j].effect.ReduceTime? {
        level.SetTimeLimit(Int32.Wrap(level.timeLimit - CeilThreeHalvesToInt(amount)));
      }
    case ExtendSafeZone(factor) =>
      if level.powerUps[j].effect.ExtendSafeZone? {
        level.physics.maxSafeDistance := level.physics.maxSafeDistance * (factor * 1.1);
      } else {
        level.physics.maxSafeDistance := level.physics.maxSafeDistance * factor;
      }
    case TemporaryDestroy(duration) => level.DestroyForAWhile(PowerUpTarget(j), nowMs, duration);
  }

  /** `powerUp.ApplyTooFar(level)`. */
  method ApplyTooFarHook(level: Level, e: Effect)
    modifies level.physics`maxSafeDistance
    ensures level.State() == ApplyTooFar(old(level.State()), e)
  {
    if e.ExtendSafeZone? {
      level.physics.maxSafeDistance := level.physics.maxSafeDistance * e.extensionFactor;
    }
  }

  /** `powerUp.ApplyTimeOver(level)`, which no power-up class gives a body. */
  method ApplyTimeOverHook(level: Level, e: Effect)
    ensures level.State() == ApplyTimeOver(old(level.State()), e)
  {
  }

  // ---------------------------------------------------------------- the engine

  class PhysicsEngine {
    var maxSafeDistance: real
    var gravityConst: int
    const minGravity: int
    const maxGravity: int

    /** The engine built from the physics line of a level file, before it is given its level. */
    constructor (settings: PhysicsSettings)
      ensures maxSafeDistance == settings.maxDistance && gravityConst == settings.gravityConst
      ensures minGravity == settings.minGravity && maxGravity == settings.maxGravity
    {
      maxSafeDistance := settings.maxDistance;
      gravityConst := settings.gravityConst;
      minGravity := settings.minGravity;
      maxGravity := settings.maxGravity;
    }

    /** The engine as `ReadPhysicsEngine` builds it again from the same line. */
    method Reload(settings: PhysicsSettings)
      modifies this`maxSafeDistance, this`gravityConst
      ensures maxSafeDistance == settings.maxDistance && gravityConst == settings.gravityConst
    {
      maxSafeDistance := settings.maxDistance;
      gravityConst := settings.gravityConst;
    }

    /** The `GravityConst` setter, used by the gravity slider. */
    method SetGravityConst(value: int)
      modifies this`gravityConst
      ensures gravityConst == value
    {
      gravityConst := value;
    }

    /**
     * `Tick`: move, cull small planets, collisions, then the safe zone.
     * `UpdateVelocities` is not part of this model.
     */
    method Tick(level: Level, nowMs: int)
      requires level.physics == this
      modifies level`suns, level`planets, level`powerUps, level`timeLimit, level`pending, this`maxSafeDistance
      ensures level.State() == Physics.Tick(old(level.State()), nowMs)
    {
      UpdatePositions(level);
      CheckRadii(level);
      CheckCollisions(level, nowMs);
      CheckDistanceFromSuns(level);
    }

    /** `UpdatePositions`, with the two `Parallel.ForEach` loops run one body at a time. */
    method UpdatePositions(level: Level)
      requires level.physics == this
      modifies level`planets, level`powerUps
      ensures level.State() == Physics.Move(old(level.State()))
    {
      ghost var target := Physics.Move(level.State());
      var n := |level.planets|;
      for k := 0 to n
        invariant |level.planets| == n
        invariant forall j :: 0 <= j < k ==> level.planets[j] == target.planets[j]
        invariant forall j :: k <= j < n ==> level.planets[j] == old(level.planets[j])
        invariant level.powerUps == old(level.powerUps)
      {
        var p := level.planets[k];
        if !p.body.isDestroyed {
          level.planets := level.planets[k := p.(body := UpdatePosition(p.body))];
        }
      }
      var m := |level.powerUps|;
      for k := 0 to m
        invariant |level.powerUps| == m
        invariant forall j :: 0 <= j < k ==> level.powerUps[j] == target.powerUps[j]
        invariant forall j :: k <= j < m ==> level.powerUps[j] == old(level.powerUps[j])
        invariant level.planets == target.planets
      {
        var p := level.powerUps[k];
        if !p.body.isDestroyed {
          level.powerUps := level.powerUps[k := p.(body := UpdatePosition(p.body))];
        }
      }
    }

    /** `CheckRadii`: every planet below the minimum radius is set destroyed. */
    method CheckRadii(level: Level)
      requires level.physics == this
      modifies level`planets
      ensures level.State() == Physics.CheckRadii(old(level.State()))
    {
      ghost var target := Physics.CheckRadii(level.State());
      var n := |level.planets|;
      for k := 0 to n
        invariant |level.planets| == n
        invariant forall j :: 0 <= j < k ==> level.planets[j] == target.planets[j]
        invariant forall j :: k <= j < n ==> level.planets[j] == old(level.planets[j])
      {
        var p := level.planets[k];
        if p.body.radius < MinimumRadius {
          level.planets := level.planets[k := p.(body := SetDestroyed(p.body, true))];
        }
      }
    }

    /** `CheckCollisions`: power-ups first, then planets against suns, then planet pairs. */
    method CheckCollisions(level: Level, nowMs: int)
      requires level.physics == this
      modifies level`suns, level`planets, level`powerUps, level`timeLimit, level`pending, this`maxSafeDistance
      ensures level.State() == Physics.Collisions(old(level.State()), nowMs)
    {
      CheckPowerUpCollisions(level, nowMs);
      CheckPlanetsAgainstSuns(level);
      CheckPlanetPairs(level);
    }

    /** `CheckPowerUpCollisions`: one step per power-up, in index order. */
    method CheckPowerUpCollisions(level: Level, nowMs: int)
      requires level.physics == this
      modifies level`suns, level`planets, level`powerUps, level`timeLimit, level`pending, this`maxSafeDistance
      ensures level.State() == Physics.PowerUpsUpTo(old(level.State()), |old(level.powerUps)|, nowMs)
    {
      ghost var s := level.State();
      var n := |level.powerUps|;
      for i := 0 to n
        invariant |level.powerUps| == n
        invariant level.State() == Physics.PowerUpsUpTo(s, i, nowMs)
      {
        PowerUpStepAt(level, i, nowMs);
      }
    }

    /**
     * One iteration of `CheckPowerUpCollisions`: the first live sun hit, else
     * the first live planet hit, else the first live later power-up hit fires
     * its hooks, and the power-up is destroyed; the goto skips the rest.
     */
    method PowerUpStepAt(level: Level, i: nat, nowMs: int)
      requires level.physics == this && i < |level.powerUps|
      modifies level`suns, level`planets, level`powerUps, level`timeLimit, level`pending, this`maxSafeDistance
      ensures level.State() == Physics.PowerUpStep(old(level.State()), i, nowMs)
    {
      var powerUp := level.powerUps[i];
      if powerUp.body.isDestroyed {
        return;
      }
      var hit := FindLiveHit(SunBodies(level.suns), powerUp.body, 0);
      if hit.Some? {
        ApplySunHook(level, powerUp.effect, hit.value, nowMs);
        level.DestroyPowerUp(i);
        return;
      }
      hit := FindLiveHit(PlanetBodies(level.planets), powerUp.body, 0);
      if hit.Some? {
        ApplyPlanetHook(level, powerUp.effect, hit.value, nowMs);
        level.DestroyPowerUp(i);
        return;
      }
      hit := FindLiveHit(PowerUpBodies(level.powerUps), powerUp.body, i + 1);
      if hit.Some? {
        var j := hit.value;
        var other := level.powerUps[j].effect;
        ApplyPowerupHook(level, powerUp.effect, j, nowMs);
        ApplyPowerupHook(level, other, i, nowMs);
        level.DestroyPowerUp(i);
      }
    }

    /** The planet-sun loop: a planet overlapping any sun is set destroyed. */
    method CheckPlanetsAgainstSuns(level: Level)
      requires level.physics == this
      modifies level`planets
      ensures level.State() == Physics.PlanetSunPass(old(level.State()))
    {
      ghost var target := Physics.PlanetSunPass(level.State());
      var n := |level.planets|;
      for k := 0 to n
        invariant |level.planets| == n
        invariant forall j :: 0 <= j < k ==> level.planets[j] == target.planets[j]
        invariant forall j :: k <= j < n ==> level.planets[j] == old(level.planets[j])
      {
        var p := level.planets[k];
        var hit := OverlapsSomeSun(p.body, level.suns);
        if hit {
          level.planets := level.planets[k := p.(body := SetDestroyed(p.body, true))];
        }
      }
    }

    /** The planet-planet loop, `for (i = 0; i < planets.Count - 1; i++)`. */
    method CheckPlanetPairs(level: Level)
      requires level.physics == this
      modifies level`planets
      ensures level.State() == Physics.PairsUpTo(old(level.State()), Physics.PairBound(old(level.State())))
    {
      ghost var s := level.State();
      var n := |level.planets|;
      var bound := if n == 0 then 0 else n - 1;
      for i := 0 to bound
        invariant |level.planets| == n
        invariant level.State() == Physics.PairsUpTo(s, i)
      {
        PairStepAt(level, i);
      }
    }

    /** One outer iteration: a live planet and the first live later planet it overlaps are destroyed. */
    method PairStepAt(level: Level, i: nat)
      requires level.physics == this && i < |level.planets|
      modifies level`planets
      ensures level.State() == Physics.PairStep(old(level.State()), i)
    {
      var p := level.planets[i];
      if p.body.isDestroyed {
        return;
      }
      var hit := FindLiveHit(PlanetBodies(level.planets), p.body, i + 1);
      if hit.Some? {
        level.DestroyPlanet(i);
        level.DestroyPlanet(hit.value);
      }
    }

    /** `numSunsCloseEnough` for one body, comparing with the current safe distance. */
    method CountSunsInRange(level: Level, b: Body) returns (count: nat)
      requires level.physics == this
      ensures count == Physics.SunsInRange(b, level.suns, maxSafeDistance, |level.suns|)
    {
      count := 0;
      for m := 0 to |level.suns|
        invariant count == Physics.SunsInRange(b, level.suns, maxSafeDistance, m)
      {
        if !level.suns[m].body.isDestroyed && WithinDistance(b, level.suns[m].body, maxSafeDistance) {
          count := count + 1;
        }
      }
    }

    /** `CheckDistanceFromSuns`: the planet loop, then the power-up loop. */
    method CheckDistanceFromSuns(level: Level)
      requires level.physics == this
      modifies level`planets, level`powerUps, this`maxSafeDistance
      ensures level.State() == Physics.CheckDistanceFromSuns(old(level.State()))
    {
      ExilePlanets(level);
      ghost var a := level.State();
      var n := |level.powerUps|;
      for i := 0 to n
        invariant |level.powerUps| == n
        invariant level.State() == Physics.ExilePowerUpsUpTo(a, i)
      {
        ExilePowerUpAt(level, i);
      }
    }

    /** The planet loop of `CheckDistanceFromSuns`. */
    method ExilePlanets(level: Level)
      requires level.physics == this
      modifies level`planets
      ensures level.State() == Physics.ExilePlanets(old(level.State()))
    {
      ghost var s := level.State();
      ghost var target := Physics.ExilePlanets(s);
      var n := |level.planets|;
      for k := 0 to n
        invariant |level.planets| == n
        invariant level.State().(planets := s.planets) == s
        invariant forall j :: 0 <= j < k ==> level.planets[j] == target.planets[j]
        invariant forall j :: k <= j < n ==> level.planets[j] == s.planets[j]
      {
        var p := level.planets[k];
        if !p.body.isDestroyed {
          var count := CountSunsInRange(level, p.body);
          if count == 0 {
            level.planets := level.planets[k := p.(body := SetDestroyed(p.body, true))];
          }
        }
      }
    }

    /** One iteration of the power-up loop: out of reach means `ApplyTooFar`, then destroyed. */
    method ExilePowerUpAt(level: Level, i: nat)
      requires level.physics == this && i < |level.powerUps|
      modifies level`powerUps, this`maxSafeDistance
      ensures level.State() == Physics.ExilePowerUpStep(old(level.State()), i)
    {
      var p := level.powerUps[i];
      if p.body.isDestroyed {
        return;
      }
      var count := CountSunsInRange(level, p.body);
      if count == 0 {
        ApplyTooFarHook(level, p.effect);
        level.DestroyPowerUp(i);
      }
    }
  }

  // ---------------------------------------------------------------- the level

  class Level {
    const previousLevel: Level?
    const currentPath: string
    const env: Environment
    /** What the level file held when the level was created; `Reset` loads it again. */
    const data: LevelData
    var nextLevel: Level?
    var nextLevelPath: Option<string>
    var suns: seq<Sun>
    var planets: seq<Planet>
    var powerUps: seq<PowerUp>
    /**
     * The engine and the count array. `InitLevel` builds new ones in the
     * source; nothing else keeps the old ones, so here the same objects are
     * set back to their initial state instead.
     */
    const physics: PhysicsEngine
    var scaleFactor: real
    var timeLimit: int
    /** The `TimeKeeper`s of this level still subscribed to the timer, in subscription order. */
    var pending: seq<Keeper>
    const planetCountByType: array<int>
    var goals: seq<Goal>
    var loseMessage: string
    var description: string
    var isRunning: bool
    var isEnded: bool

    /**
     * The engine has the file's gravity bounds and the count array has a slot
     * per planet type.
     */
    predicate Valid() {
      planetCountByType.Length == 3
      && physics.minGravity == data.physics.minGravity && physics.maxGravity == data.physics.maxGravity
    }

    /** The part of the level the engine and the hooks change. */
    function State(): Scene
      reads this`suns, this`planets, this`powerUps, this`timeLimit, this`pending, physics`maxSafeDistance
    {
      Scene(suns, planets, powerUps, timeLimit, physics.maxSafeDistance, pending)
    }

    /** Lists, numbers, goals and engine are those of the level file. */
    predicate Loaded()
      reads this, physics
    {
      suns == data.suns && planets == data.planets && powerUps == data.powerUps
      && scaleFactor == data.scaleFactor && timeLimit == data.timeLimit
      && goals == data.goals && nextLevelPath == data.nextLevelPath
      && physics.maxSafeDistance == data.physics.maxDistance && physics.gravityConst == data.physics.gravityConst
    }

    predicate IsFirstLevel() {
      previousLevel == null
    }

    predicate IsLastLevel()
      reads this`nextLevelPath
    {
      nextLevelPath.None?
    }

    /**
     * A level loaded from `data`: the description starts with the
     * requirements header, then each goal on a line, then the file's text.
     */
    constructor (previous: Level?, path: string, env: Environment, data: LevelData)
      ensures Valid() && Loaded() && fresh(physics) && fresh(planetCountByType)
      ensures previousLevel == previous && currentPath == path && this.env == env && this.data == data
      ensures nextLevel == null && pending == [] && !isRunning && !isEnded
      ensures planetCountByType[..] == [0, 0, 0]
      ensures loseMessage == LoseHeader
      ensures description == RequirementsHeader + GoalLines(data.goals) + data.description
    {
      previousLevel := previous;
      currentPath := path;
      this.env := env;
      this.data := data;
      nextLevel := null;
      loseMessage := LoseHeader;
      description := RequirementsHeader;
      isRunning := false;
      isEnded := false;
      physics := new PhysicsEngine(data.physics);
      planetCountByType := new int[3];
      new;
      InitLevel();
    }

    /** `InitLevel`: fresh lists, engine and count array from the file; the description grows. */
    method InitLevel()
      requires Valid()
      modifies this`suns, this`planets, this`powerUps, this`scaleFactor, this`timeLimit,
               this`goals, this`nextLevelPath, this`pending, this`description,
               physics`maxSafeDistance, physics`gravityConst, planetCountByType
      ensures Valid() && Loaded()
      ensures planetCountByType[..] == [0, 0, 0] && pending == []
      ensures description == old(description) + GoalLines(data.goals) + data.description
    {
      physics.Reload(data.physics);
      planetCountByType[0], planetCountByType[1], planetCountByType[2] := 0, 0, 0;
      LoadLists();
    }

    /** The lists, numbers and goals of `InitLevel`, taken from the file; the description grows. */
    method LoadLists()
      modifies this`suns, this`planets, this`powerUps, this`scaleFactor, this`timeLimit,
               this`goals, this`nextLevelPath, this`pending, this`description
      ensures suns == data.suns && planets == data.planets && powerUps == data.powerUps
      ensures scaleFactor == data.scaleFactor && timeLimit == data.timeLimit
      ensures goals == data.goals && nextLevelPath == data.nextLevelPath && pending == []
      ensures description == old(description) + GoalLines(data.goals) + data.description
    {
      suns, planets, powerUps := data.suns, data.planets, data.powerUps;
      scaleFactor, timeLimit := data.scaleFactor, data.timeLimit;
      goals, nextLevelPath := data.goals, data.nextLevelPath;
      pending := [];
      description := description + GoalLines(data.goals) + data.description;
    }

    /** `Tick`: the engine's tick (drawing and the time label are not modelled). */
    method Tick(nowMs: int)
      requires Valid()
      modifies this`suns, this`planets, this`powerUps, this`timeLimit, this`pending, physics`maxSafeDistance
      ensures State() == Physics.Tick(old(State()), nowMs)
    {
      physics.Tick(this, nowMs);
    }

    /** The `TimeLimit` setter. */
    method SetTimeLimit(value: int)
      modifies this`timeLimit
      ensures State() == PowerUps.SetTimeLimit(old(State()), value)
    {
      timeLimit := ClampTimeLimit(value);
    }

    /** The corrected `CheckTimeLimit`, with the product taken without wrap-around. */
    method CheckTimeLimit(elapsedMs: int) returns (r: bool)
      ensures r == TimeIsUp(elapsedMs, timeLimit)
    {
      r := elapsedMs > 1000 * timeLimit;
    }

    method Start()
      modifies this`isRunning
      ensures isRunning
    {
      isRunning := true;
    }

    method Stop()
      modifies this`isRunning
      ensures !isRunning
    {
      isRunning := false;
    }

    /** `End`: stops the level for good. */
    method End()
      modifies this`isRunning, this`isEnded
      ensures !isRunning && isEnded
    {
      Stop();
      isEnded := true;
    }

    /**
     * `Reset`: stopped, not ended, the file loaded again. The links, the lose
     * message and the description so far stay, and the description grows by
     * the goals and the file's text once more.
     */
    method Reset()
      requires Valid()
      modifies this`suns, this`planets, this`powerUps, this`scaleFactor, this`timeLimit,
               this`goals, this`nextLevelPath, this`pending, this`description, this`isRunning, this`isEnded,
               physics`maxSafeDistance, physics`gravityConst, planetCountByType
      ensures Valid() && Loaded() && planetCountByType[..] == [0, 0, 0]
      ensures !isRunning && !isEnded && pending == []
      ensures description == old(description) + GoalLines(data.goals) + data.description
    {
      Stop();
      isEnded := false;
      InitLevel();
    }

    /**
     * `NextLevel`: none without a next path; otherwise the level built on the
     * first request, with this level as its previous one, and the same object
     * on every later request. A file that fails to load builds nothing.
     */
    method NextLevel() returns (r: Result<Level?, Fault>)
      modifies this`nextLevel
      ensures nextLevelPath.None? ==> r == Success(null) && nextLevel == old(nextLevel)
      ensures nextLevelPath.Some? && old(nextLevel) != null ==> r == Success(old(nextLevel)) && nextLevel == old(nextLevel)
      ensures nextLevelPath.Some? && old(nextLevel) == null ==>
        (r.Success? <==> LoadLevel(env, nextLevelPath.value).Success?)
        && (r.Failure? ==> r.error == LoadLevel(env, nextLevelPath.value).error && nextLevel == null)
        && (r.Success? ==>
              (r.value == nextLevel && nextLevel != null && fresh(nextLevel) && nextLevel.Valid()
               && nextLevel.nextLevel == null && !nextLevel.isRunning && !nextLevel.isEnded
               && nextLevel.previousLevel == this && nextLevel.currentPath == nextLevelPath.value
               && nextLevel.data == LoadLevel(env, nextLevelPath.value).value && nextLevel.env == env
               && nextLevel.Loaded()))
    {
      if nextLevelPath.None? {
        return Success(null);
      }
      if nextLevel != null {
        return Success(nextLevel);
      }
      var loaded := ReadLevelInput(env, nextLevelPath.value);
      if loaded.Failure? {
        return Failure(loaded.error);
      }
      var level := new Level(this, nextLevelPath.value, env, loaded.value);
      nextLevel := level;
      return Success(level);
    }

    /** Sets a target's destroyed flag: unguarded for a sun, the guarded setter otherwise. */
    method Destroy(t: Target)
      modifies this`suns, this`planets, this`powerUps
      ensures State() == PowerUps.Destroy(old(State()), t)
    {
      match t
      case SunTarget(k) =>
        if k < |suns| {
          suns := suns[k := suns[k].(body := suns[k].body.(isDestroyed := true))];
        }
      case PlanetTarget(k) =>
        if k < |planets| {
          planets := planets[k := planets[k].(body := SetDestroyed(planets[k].body, true))];
        }
      case PowerUpTarget(k) =>
        if k < |powerUps| {
          powerUps := powerUps[k := powerUps[k].(body := SetDestroyed(powerUps[k].body, true))];
        }
    }

    /** Clears a target's destroyed flag, which every setter stores. */
    method Revive(t: Target)
      modifies this`suns, this`planets, this`powerUps
      ensures State() == PowerUps.Revive(old(State()), t)
    {
      match t
      case SunTarget(k) =>
        if k < |suns| {
          suns := suns[k := suns[k].(body := suns[k].body.(isDestroyed := false))];
        }
      case PlanetTarget(k) =>
        if k < |planets| {
          planets := planets[k := planets[k].(body := SetDestroyed(planets[k].body, false))];
        }
      case PowerUpTarget(k) =>
        if k < |powerUps| {
          powerUps := powerUps[k := powerUps[k].(body := SetDestroyed(powerUps[k].body, false))];
        }
    }

    /** The engine's `powerUp.IsDestroyed = true`. */
    method DestroyPowerUp(i: nat)
      requires i < |powerUps|
      modifies this`powerUps
      ensures State() == Physics.DestroyPowerUp(old(State()), i)
    {
      powerUps := powerUps[i := powerUps[i].(body := SetDestroyed(powerUps[i].body, true))];
    }

    /** The engine's `planets[k].IsDestroyed = true`. */
    method DestroyPlanet(k: nat)
      requires k < |planets|
      modifies this`planets
      ensures State() == Physics.DestroyPlanet(old(State()), k)
    {
      planets := planets[k := planets[k].(body := SetDestroyed(planets[k].body, true))];
    }

    /** A `TemporaryDestroy` hook: destroy the target and subscribe a new keeper. */
    method DestroyForAWhile(t: Target, nowMs: int, duration: int)
      modifies this`suns, this`planets, this`powerUps, this`pending
      ensures State() == PowerUps.DestroyForAWhile(old(State()), t, nowMs, duration)
    {
      Destroy(t);
      pending := pending + [NewKeeper(t, nowMs, duration)];
    }

    /** `TimeKeeper.CheckTime` of one keeper; the result says whether it stays subscribed. */
    method CheckKeeper(k: Keeper, nowMs: int) returns (stays: bool)
      modifies this`suns, this`planets, this`powerUps
      ensures (State(), stays) == PowerUps.CheckTime(old(State()), k, isEnded, nowMs)
    {
      if isEnded {
        return false;
      }
      if nowMs > k.endTimeMs {
        Revive(k.target);
        return false;
      }
      return true;
    }

    /**
     * The keepers among the first `count` subscribed ones run once each, in
     * order; those that unsubscribe leave the list, and keepers subscribed
     * after the first `count` wait for the next tick.
     */
    method RunKeepers(count: nat, nowMs: int)
      requires count <= |pending|
      modifies this`suns, this`planets, this`powerUps, this`pending
      ensures State() == AfterKeepers(old(State()), count, isEnded, nowMs)
    {
      ghost var s := State();
      var ks := pending[..count];
      var rest := pending[count..];
      var kept: seq<Keeper> := [];
      for m := 0 to count
        invariant pending == s.pending
        invariant (State(), kept) == PowerUps.RunKeepers(s, ks[..m], isEnded, nowMs)
      {
        assert ks[..m + 1][..m] == ks[..m];
        var stays := CheckKeeper(ks[m], nowMs);
        if stays {
          kept := kept + [ks[m]];
        }
      }
      assert ks[..count] == ks;
      pending := kept + rest;
    }

    /**
     * The corrected `UpdatePlanetCountByType`: the array is zeroed, then each
     * live planet adds one to its type's slot. A live planet whose type value
     * is not a declared member indexes past the array, which throws.
     */
    method UpdatePlanetCountByType() returns (ok: bool)
      requires Valid()
      modifies planetCountByType
      ensures ok <==> AllLiveDeclared(planets)
      ensures ok ==> planetCountByType[..] == Tally(planets)
    {
      ok := CountByType(planetCountByType, planets);
    }

    /**
     * `CheckVictory`: every condition is evaluated, in order; each failing one
     * appends a line with its goal to the lose message, and the result is true
     * exactly when all hold. `None` stands for an exception: a live planet of
     * an undeclared type, or a condition that throws.
     */
    method CheckVictory() returns (r: Option<bool>)
      requires Valid()
      modifies planetCountByType, this`loseMessage
      ensures AllLiveDeclared(planets) ==> planetCountByType[..] == Tally(planets)
      ensures r.Some? <==> AllLiveDeclared(planets) && !Verdict(goals, planets).faulted
      ensures r.Some? ==> r.value == Verdict(goals, planets).victory
                          && loseMessage == old(loseMessage) + Verdict(goals, planets).appended
    {
      var ok := UpdatePlanetCountByType();
      if !ok {
        return None;
      }
      var counts := planetCountByType[..];
      var conds, descs := Conditions(goals), Descriptions(goals);
      var victory := true;
      ghost var appended := "";
      for i := 0 to |goals|
        invariant Judge(conds, descs, counts, |planets|, i) == Judgement(victory, appended, false)
        invariant loseMessage == old(loseMessage) + appended
        invariant planetCountByType[..] == counts
      {
        var holds := Holds(goals[i].condition, counts, |planets|);
        if holds.None? {
          JudgeMeaning(conds, descs, counts, |planets|, |goals|);
          return None;
        }
        if !holds.value {
          victory := false;
          appended := appended + "\n" + goals[i].description;
          loseMessage := loseMessage + "\n" + goals[i].description;
        }
      }
      return Some(victory);
    }
  }
}
