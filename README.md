# Zapoctak.Net1 — a verified model of the gravity sandbox

Zapoctak.Net1 is a small Windows Forms game. Each level holds suns, planets of
three types (Good, Neutral, Bad) and power-ups. The player can only change the
gravitational constant, using a scroll bar or the mouse wheel. A timer ticks
the physics: bodies drift, and a planet is destroyed when it shrinks below the
minimum radius, hits a sun or another planet, or strays out of every sun's safe
distance. A power-up that hits something runs a hook on the level and is
destroyed. When the level's time limit has run out, the win conditions are
evaluated. These are one-parameter lambdas read from the level file, such as
`l => l.PlanetCountByType[Good] >= 3`. Levels are chained into a doubly linked
list: the next level is loaded lazily from the path named in the current file.

The repository holds two generations of the game, and this project models both:

- the newer one (`Zapoctak.Net1/Zapoctak.Net1/` and the plugin project
  `Zapoctak.Net1/Powerups/`);
- the older one (`Zapoctak.Net1/ZapoctakProg2/`).

They share the level-file format and most of the physics. They differ in:

- the power-up hooks;
- immortal bodies;
- how win conditions are judged and described;
- the time-up flow of the form.

Modules, file by file:

| file | module | what it holds |
|---|---|---|
| `wrappers.dfy` | `Wrappers` | `Option` and `Result` |
| `strings.dfy` | `Strings` | .NET `Split`, `Trim`, `Replace`, `ToLower`, integer formatting and parsing |
| `int32.dfy` | `Int32` | C# 32-bit wrap-around and truncating division |
| `bodies.dfy` | `Bodies` | space objects as values: coordinates, drift, the guarded destroyed flag, collision and safe-distance geometry |
| `conditions.dfy` | `WinConditions` | parsing a win-condition lambda, its generated description, its evaluation, both generations' victory checks |
| `powerups.dfy` | `PowerUps` | the newer hooks of `ReduceTimePowerUp`, `ExtendSafeZone` and `TemporaryDestroy`, plus the `TimeKeeper`s |
| `physics.dfy` | `Physics` | each pass of the newer `PhysicsEngine.Tick` as a function on the level's `Scene` |
| `lines.dfy` | `LevelInput` | the level-file reader shared by both generations: pure reads, and the `LevelInputReader` class proved against them |
| `reader.dfy` | `LevelReader` | the newer power-up and win-condition sections and the whole newer level file |
| `plugins.dfy` | `Plugins` | the newer `PowerUpPluginLoader` (registry, plugin assemblies) |
| `levels.dfy` | `Levels` | the newer `Level` and `PhysicsEngine` classes, state-changing methods proved against `Physics` and `PowerUps` |
| `form.dfy` | `Forms` | the newer `Form1` event handlers |
| `legacy_physics.dfy` | `LegacyPhysics` | the older engine's passes on the older `Scene` |
| `legacy_reader.dfy` | `LegacyReader` | the older power-up and win-condition sections, the older level file and plugin registry |
| `legacy_level.dfy` | `LegacyLevels` | the older `Level` and `PhysicsEngine` classes |
| `legacy_form.dfy` | `LegacyForms` | the older `Form1` event handlers |
| `lose_conditions.dfy` | `LoseConditions` | the older lose-condition classes |

Every imperative method is proved against a specification function on values.
Such a method ensures `level.State() == F(old(level.State()))` or
`Follows(F(src, old(position)), r, position)`. The properties the program
promises are then proved about `F` as lemmas:

- nothing is revived during a tick;
- after the pair pass no two live planets overlap;
- every surviving planet lies within the safe distance of a live sun;
- the time limit never drops below zero;
- counted sections read exactly `count` records;
- coordinates round-trip through the format;
- a keeper resurrects its target exactly once.

A few things are outside the program, so they are parameters:

- the .NET number parsers;
- `File.Exists`;
- the Dynamic LINQ compiler behind `DynamicExpression.ParseLambda`;
- the stopwatch's elapsed milliseconds;
- the set of plugin assemblies.

Throughout the table, paths are relative to the repository root.

## Model

| member | source | states |
|---|---|---|
| `Bodies.FromCoordinates` | Zapoctak.Net1/Zapoctak.Net1/SpaceObject.cs:49-51 | a body built from coordinates carries exactly those coordinates and starts alive and mortal |
| `Bodies.SetDestroyed` | Zapoctak.Net1/Zapoctak.Net1/SpaceObject.cs:97-106 | the `IsDestroyed` setter changes only the flag. Clearing always stores false. An immortal body ignores `true`; a mortal body stores the value given |
| `Bodies.SetDestroyedIdempotent` | Zapoctak.Net1/Zapoctak.Net1/SpaceObject.cs:97-106 | setting the flag twice to the same value is the same as setting it once |
| `Bodies.UpdatePosition` | Zapoctak.Net1/Zapoctak.Net1/SpaceObject.cs:119-123 | a drift step moves the position by velocity / `SlowdownFactor` and keeps velocity, radius and flags |
| `Bodies.DriftIsLinear` | Zapoctak.Net1/Zapoctak.Net1/SpaceObject.cs:119-123 | n drift steps move the body by n · velocity / 20 and change nothing else |
| `Bodies.DistanceSquared` | Zapoctak.Net1/Zapoctak.Net1/SpaceObject.cs:76-81 | the squared Euclidean distance is never negative |
| `Bodies.DistanceSymmetric` | Zapoctak.Net1/Zapoctak.Net1/SpaceObject.cs:76-81 | distance is symmetric, and zero from a body to itself |
| `Bodies.CollisionMatchesDistance` | Zapoctak.Net1/Zapoctak.Net1/SpaceObject.cs:139-142 | the square-root-free collision test holds exactly when the distance is below the sum of the radii |
| `Bodies.TouchingIsNoCollision` | Zapoctak.Net1/Zapoctak.Net1/SpaceObject.cs:139-142 | bodies exactly touching (distance = sum of radii) have not collided, since the comparison is strict |
| `Bodies.CollisionSymmetric` | Zapoctak.Net1/Zapoctak.Net1/SpaceObject.cs:139-142 | a collides with b exactly when b collides with a |
| `Bodies.WithinMatchesDistance` | Zapoctak.Net1/Zapoctak.Net1/PhysicsEngine.cs:120 | the square-root-free safe-distance test holds exactly when `DistanceTo(sun) <= maxSafeDistance` |
| `Bodies.CollisionIgnoresFlags` | Zapoctak.Net1/Zapoctak.Net1/SpaceObject.cs:139-142 | `HasCollidedWith` ignores the destroyed flags, so the planet–sun pass hits destroyed suns too |
| `Bodies.FirstLiveHit` | Zapoctak.Net1/Zapoctak.Net1/PhysicsEngine.cs:191-200 | the search skipping destroyed targets returns the least index of a live target hit, or none when no live target is hit |
| `Bodies.NoLiveHitFindsNothing` | Zapoctak.Net1/Zapoctak.Net1/PhysicsEngine.cs:202-211 | with no live target hit, the search finds nothing |
| `Bodies.LeastLiveHitFound` | Zapoctak.Net1/Zapoctak.Net1/PhysicsEngine.cs:191-200 | the first live target hit is the one the search returns |
| `Int32.Wrap` | Zapoctak.Net1/Zapoctak.Net1/Level.cs:158 | 32-bit wrap-around: the result lies in the `int` range, is congruent to the input mod 2^32, and is the input itself when that is in range |
| `Int32.TruncDiv` | Zapoctak.Net1/Zapoctak.Net1/Form1.cs:155 | C# integer division: the magnitude is |a| / |b|, and the sign follows the operands (truncation toward zero) |
| `Int32.TruncDivOdd` | Zapoctak.Net1/Zapoctak.Net1/Form1.cs:155 | truncating division is odd: negating the dividend negates the quotient |
| `Int32.TruncDivDiffersFromEuclidean` | Zapoctak.Net1/Zapoctak.Net1/Form1.cs:155 | -7 / 2 is -3 in C# but -4 under Euclidean division |
| `Int32.CastToInt` | Zapoctak.Net1/Zapoctak.Net1/PowerUp.cs:96 | a whole-valued `double` cast to `int`: itself when in range, `int.MinValue` otherwise |
| `Strings.ReplaceLeavesNoOccurrence` | Zapoctak.Net1/Zapoctak.Net1/ExpressionParser.cs:22-24 | after `Replace(pat, rep)` with a replacement that shares no character with q, q no longer occurs, provided q is the pattern or did not occur before |
| `Strings.Split` | Zapoctak.Net1/Zapoctak.Net1/ExpressionParser.cs:19 | `string.Split(separator, None)` always yields at least one part |
| `Strings.SplitJoin` | Zapoctak.Net1/Zapoctak.Net1/ExpressionParser.cs:19 | joining the parts with the separator gives back the original string |
| `Strings.SplitSingleSegment` | Zapoctak.Net1/Zapoctak.Net1/ExpressionParser.cs:19 | there is exactly one part iff the separator does not occur, and that part is the whole string |
| `Strings.SplitHeadFree` | Zapoctak.Net1/Zapoctak.Net1/ExpressionParser.cs:19-20 | the first part is a prefix of the string and contains no separator |
| `Strings.SplitChars` | Zapoctak.Net1/Zapoctak.Net1/LevelInputReader.cs:32 | splitting on a set of characters always yields at least one field |
| `Strings.SplitCharsFields` | Zapoctak.Net1/Zapoctak.Net1/LevelInputReader.cs:32 | there is one field more than separators, and no field contains a separator |
| `Strings.TrimStart` | Zapoctak.Net1/Zapoctak.Net1/ExpressionParser.cs:20 | the result is a suffix that starts with a kept character, and everything removed was in the trim set |
| `Strings.TrimEnd` | Zapoctak.Net1/Zapoctak.Net1/ExpressionParser.cs:20 | the result is a prefix that ends with a kept character, and everything removed was in the trim set |
| `Strings.TrimIdempotent` | Zapoctak.Net1/Zapoctak.Net1/ExpressionParser.cs:20 | trimming twice is trimming once |
| `Strings.ToLower` | Zapoctak.Net1/Zapoctak.Net1/LevelInputReader.cs:149 | lower-casing keeps the length and maps each character through the invariant lower-case map of Basic Latin, Latin-1, Latin Extended-A, basic Greek and basic Cyrillic |
| `Strings.ToLowerIdempotent` | Zapoctak.Net1/Zapoctak.Net1/LevelInputReader.cs:149 | lower-casing twice is lower-casing once |
| `Strings.NatToString` | Zapoctak.Net1/ZapoctakProg2/Class1.cs:42 | a natural number's decimal text is non-empty and all digits |
| `Strings.NatToStringValue` | Zapoctak.Net1/ZapoctakProg2/Class1.cs:42 | the digits of a natural number's text read back as the number |
| `Strings.IntToStringRoundTrip` | Zapoctak.Net1/ZapoctakProg2/Class1.cs:42 | parsing an integer's decimal text gives back the integer, negatives included |
| `WinConditions.Parse` | Zapoctak.Net1/Zapoctak.Net1/ExpressionParser.cs:17-29 | a parsed condition comes from splitting at "=>", trimming the parameter name and replacing the keywords, then compiling; the cast to `Func<Level, bool>` that follows is `IsPredicate`, applied by the readers |
| `WinConditions.PreprocessNeedsArrow` | Zapoctak.Net1/Zapoctak.Net1/ExpressionParser.cs:19-21 | preprocessing fails (`exprParts[1]` is out of range) iff the text contains no "=>" |
| `WinConditions.NoKeywordRemains` | Zapoctak.Net1/Zapoctak.Net1/ExpressionParser.cs:22-24 | after the three replacements no "Good", "Neutral" or "Bad" is left in the body |
| `WinConditions.ParamPrecedesFirstArrow` | Zapoctak.Net1/Zapoctak.Net1/ExpressionParser.cs:19-20 | the parameter name is the trimmed text before the first "=>", and is free of the trimmed characters at both ends |
| `WinConditions.Render` | Zapoctak.Net1/Zapoctak.Net1/ExpressionParser.cs:64 | the printed form of an expression tree is never empty |
| `WinConditions.DescribeIsStructural` | Zapoctak.Net1/Zapoctak.Net1/ExpressionParser.cs:62-85 | the string-comparing description generator equals a structural one: the count leaves get their names, mapped operators join both sides' descriptions, anything else prints as is |
| `WinConditions.Arithmetic` | Zapoctak.Net1/Zapoctak.Net1/ExpressionParser.cs:27 | compiled `int` arithmetic wraps to 32 bits, and faults exactly on division or modulo by zero or `MinValue / -1` |
| `WinConditions.AndAlsoMeaning` | Zapoctak.Net1/Zapoctak.Net1/ExpressionParser.cs:27 | `AndAlso` is true iff both sides are true, and it short-circuits on a false left side |
| `WinConditions.EvalRespectsType` | Zapoctak.Net1/Zapoctak.Net1/LevelInputReader.cs:146-147 | an expression of static type `int` or `bool` either throws or yields a value of that type |
| `WinConditions.PredicateHolds` | Zapoctak.Net1/Zapoctak.Net1/LevelInputReader.cs:146-147 | a condition that passed the `Func<Level, bool>` cast returns a verdict whenever its body yields a value: only index and division faults remain |
| `WinConditions.JudgeMeaning` | Zapoctak.Net1/Zapoctak.Net1/Level.cs:208-222 | the newer check faults iff some condition throws; otherwise it reports victory iff every condition holds |
| `WinConditions.AllHoldMeaning` | Zapoctak.Net1/ZapoctakProg2/Level.cs:197-209 | the older check is true iff every condition holds, and false iff one fails while all before it hold |
| `WinConditions.GenerationsAgree` | Zapoctak.Net1/ZapoctakProg2/Level.cs:197-209 | with no throwing condition, the two generations' checks give the same verdict |
| `WinConditions.AllHoldDecides` | Zapoctak.Net1/ZapoctakProg2/Level.cs:201-208 | with no throwing condition, the older check returns whether all conditions hold |
| `PowerUps.PowerUpIdsDistinct` | Zapoctak.Net1/Zapoctak.Net1/PowerUp.cs:111 | the three parsers' ids are pairwise distinct |
| `PowerUps.OnlyDestroysTransitive` | Zapoctak.Net1/Zapoctak.Net1/PhysicsEngine.cs:49-55 | "only destroys, only appends keepers" composes across passes |
| `PowerUps.ClampTimeLimit` | Zapoctak.Net1/Zapoctak.Net1/Level.cs:75-79 | the `TimeLimit` setter stores `Math.Max(0, value)` |
| `PowerUps.CeilThreeHalves` | Zapoctak.Net1/Zapoctak.Net1/PowerUp.cs:96 | `Math.Ceiling(1.5 * n)` is the least integer r with 3n <= 2r |
| `PowerUps.CeilThreeHalvesToInt` | Zapoctak.Net1/Zapoctak.Net1/PowerUp.cs:96 | the `(int)` cast of that ceiling: the exact ceiling exactly when -1431655765 <= n <= 1431655764, `int.MinValue` outside |
| `PowerUps.NewKeeper` | Zapoctak.Net1/Powerups/TemporaryDestroy.cs:73-79 | a keeper starts now and ends `duration` ms later |
| `PowerUps.DestroyForAWhile` | Zapoctak.Net1/Powerups/TemporaryDestroy.cs:40-56 | a `TemporaryDestroy` collision only destroys its target, appends exactly one keeper, and keeps the time limit and safe distance |
| `PowerUps.ApplyPlanet` | Zapoctak.Net1/Zapoctak.Net1/PowerUp.cs:72-85 | whatever the power-up, hitting a planet changes no body except by destroying it, and never removes a keeper; the time-limit arithmetic is 32-bit (`ReduceTimeAmounts`) |
| `PowerUps.ApplySun` | Zapoctak.Net1/Zapoctak.Net1/PowerUp.cs:87-90 | whatever the power-up, hitting a sun changes no body except by destroying it, and never removes a keeper; the time-limit arithmetic is 32-bit (`ReduceTimeAmounts`) |
| `PowerUps.ApplyPowerup` | Zapoctak.Net1/Zapoctak.Net1/PowerUp.cs:92-98 | whatever the power-up, hitting a power-up changes no body except by destroying it, and never removes a keeper; the time-limit arithmetic is 32-bit (`ReduceTimeAmounts`) |
| `PowerUps.ApplyTooFar` | Zapoctak.Net1/Powerups/ExtendSafeZone.cs:74-77 | the too-far hook changes no body and no keeper |
| `PowerUps.ApplyTimeOver` | Zapoctak.Net1/Zapoctak.Net1/PowerUp.cs:104-106 | the time-over hook leaves the level unchanged, for every power-up |
| `PowerUps.ReduceTimeTouchesOnlyTimeLimit` | Zapoctak.Net1/Zapoctak.Net1/PowerUp.cs:72-106 | every `ReduceTimePowerUp` hook changes only the time limit |
| `PowerUps.ReduceTimeAmounts` | Zapoctak.Net1/Zapoctak.Net1/PowerUp.cs:72-98 | Good planet or sun: minus amount. Bad planet: plus amount. Neutral or undeclared type: nothing. Another `ReduceTime`: minus the `int` cast of ceil(1.5 · amount), other power-ups nothing. Every sum wraps at 32 bits, then goes through the clamp; without overflow the result is the exact clamped value |
| `PowerUps.ReduceTimeOverflowEndsLevel` | Zapoctak.Net1/Zapoctak.Net1/PowerUp.cs:82 | a Bad planet with amount `int.MaxValue` on a limit of 10 wraps to a negative sum, so the clamp leaves 0 |
| `PowerUps.ReduceTimeClampsAtZero` | Zapoctak.Net1/Zapoctak.Net1/Level.cs:78 | 5 seconds left minus 10 leaves 0, not -5 |
| `PowerUps.ExtendSafeZoneTouchesOnlyDistance` | Zapoctak.Net1/Powerups/ExtendSafeZone.cs:47-77 | `ExtendSafeZone` multiplies only the safe distance: by the factor for a sun, a planet or too-far; by 1.1 · factor against another `ExtendSafeZone`. Time-over does nothing |
| `PowerUps.TemporaryDestroyHooks` | Zapoctak.Net1/Powerups/TemporaryDestroy.cs:40-64 | each collision hook destroys its target through the setter and subscribes exactly one keeper due `duration` ms later, even when the destroy was refused. Nothing else changes; the other two hooks do nothing |
| `PowerUps.HooksKeepTimeLimitNonNegative` | Zapoctak.Net1/Zapoctak.Net1/Level.cs:75-79 | no hook can make a non-negative time limit negative |
| `PowerUps.RunKeepers` | Zapoctak.Net1/Powerups/TemporaryDestroy.cs:81-94 | running the subscribed keepers keeps the list lengths |
| `PowerUps.EndedLevelDropsKeepers` | Zapoctak.Net1/Powerups/TemporaryDestroy.cs:83-87 | once the level has ended, every keeper unsubscribes and nothing is resurrected |
| `PowerUps.RunningKeepers` | Zapoctak.Net1/Powerups/TemporaryDestroy.cs:89-93 | while running, exactly the keepers not yet due stay subscribed, and every due keeper's target is alive afterwards |
| `Physics.Move` | Zapoctak.Net1/Zapoctak.Net1/PhysicsEngine.cs:78-88 | moving changes no destroyed flag, no sun, and nothing outside the planet and power-up lists |
| `Physics.MoveAdvancesLiveBodies` | Zapoctak.Net1/Zapoctak.Net1/PhysicsEngine.cs:80-87 | every live planet and power-up takes one drift step; destroyed ones stay put |
| `Physics.CheckRadii` | Zapoctak.Net1/Zapoctak.Net1/PhysicsEngine.cs:59-68 | a planet is destroyed afterwards iff it was already, or is mortal with radius below `MinimumRadius`. Nothing else changes |
| `Physics.DestroyPowerUp` | Zapoctak.Net1/Zapoctak.Net1/PhysicsEngine.cs:197 | setting a power-up's flag only destroys, and touches only the power-up list |
| `Physics.SunHit` | Zapoctak.Net1/Zapoctak.Net1/PhysicsEngine.cs:196-197 | the sun branch only destroys and keeps a non-negative time limit non-negative |
| `Physics.PlanetHit` | Zapoctak.Net1/Zapoctak.Net1/PhysicsEngine.cs:207-208 | the planet branch only destroys and keeps a non-negative time limit non-negative |
| `Physics.PairHit` | Zapoctak.Net1/Zapoctak.Net1/PhysicsEngine.cs:218-220 | the pair branch only destroys and keeps a non-negative time limit non-negative |
| `Physics.PowerUpStep` | Zapoctak.Net1/Zapoctak.Net1/PhysicsEngine.cs:189-225 | one power-up's turn only destroys and keeps the time limit non-negative |
| `Physics.PowerUpsUpTo` | Zapoctak.Net1/Zapoctak.Net1/PhysicsEngine.cs:185-227 | the whole power-up collision pass only destroys and keeps the time limit non-negative |
| `Physics.SunHitComesFirst` | Zapoctak.Net1/Zapoctak.Net1/PhysicsEngine.cs:191-200 | a live power-up hitting a live sun runs that first sun's hook and is destroyed |
| `Physics.PlanetHitOnlyWithoutSun` | Zapoctak.Net1/Zapoctak.Net1/PhysicsEngine.cs:202-211 | with no live sun hit, the first live planet hit runs `ApplyPlanet`, then the power-up is destroyed |
| `Physics.PowerUpPairBothHooks` | Zapoctak.Net1/Zapoctak.Net1/PhysicsEngine.cs:213-223 | with no sun or planet hit, the first later live power-up hit runs both hooks (this one's, then the other's), then this one is destroyed |
| `Physics.QuietPowerUpChangesNothing` | Zapoctak.Net1/Zapoctak.Net1/PhysicsEngine.cs:187-226 | a destroyed power-up, or one that hits nothing live, leaves the level unchanged |
| `Physics.PlanetSunPass` | Zapoctak.Net1/Zapoctak.Net1/PhysicsEngine.cs:155-165 | a planet is destroyed afterwards iff it was already, or is mortal and overlaps any sun, destroyed suns included |
| `Physics.DestroyPlanet` | Zapoctak.Net1/Zapoctak.Net1/PhysicsEngine.cs:177-178 | setting a planet's flag only destroys, and touches only the planet list |
| `Physics.PairStep` | Zapoctak.Net1/Zapoctak.Net1/PhysicsEngine.cs:169-181 | planet i's turn in the pair pass only destroys planets |
| `Physics.PairsUpTo` | Zapoctak.Net1/Zapoctak.Net1/PhysicsEngine.cs:167-182 | the planet pair pass only destroys planets |
| `Physics.SettledPersists` | Zapoctak.Net1/Zapoctak.Net1/PhysicsEngine.cs:167-182 | a planet that is destroyed or overlaps no later live planet stays so under any later pass that only destroys |
| `Physics.PairStepSettles` | Zapoctak.Net1/Zapoctak.Net1/PhysicsEngine.cs:171-181 | after a mortal planet i's turn, it is destroyed or overlaps no later live planet |
| `Physics.PairsSettle` | Zapoctak.Net1/Zapoctak.Net1/PhysicsEngine.cs:167-182 | when every planet is mortal, each planet already handled stays settled to the end of the pass |
| `Physics.NoLiveOverlapAfterPairs` | Zapoctak.Net1/Zapoctak.Net1/PhysicsEngine.cs:167-182 | when every planet is mortal, no two live planets overlap after the pair pass |
| `Physics.Collisions` | Zapoctak.Net1/Zapoctak.Net1/PhysicsEngine.cs:150-183 | the collision phase only destroys and keeps the time limit non-negative |
| `Physics.NoSunInRange` | Zapoctak.Net1/Zapoctak.Net1/PhysicsEngine.cs:116-123 | the in-range count is zero iff no live sun lies within the safe distance |
| `Physics.ExilePlanets` | Zapoctak.Net1/Zapoctak.Net1/PhysicsEngine.cs:113-127 | a planet is destroyed afterwards iff it was already, or is mortal, live and out of range of every live sun |
| `Physics.ExilePowerUpStep` | Zapoctak.Net1/Zapoctak.Net1/PhysicsEngine.cs:131-143 | one power-up's range check only destroys and leaves suns, planets and the time limit alone |
| `Physics.ExilePowerUpsUpTo` | Zapoctak.Net1/Zapoctak.Net1/PhysicsEngine.cs:129-145 | the power-up range pass only destroys and leaves suns, planets and the time limit alone |
| `Physics.CheckDistanceFromSuns` | Zapoctak.Net1/Zapoctak.Net1/PhysicsEngine.cs:111-147 | the safe-distance phase only destroys and keeps the time limit non-negative |
| `Physics.SurvivorsAreInRange` | Zapoctak.Net1/Zapoctak.Net1/PhysicsEngine.cs:113-127 | after the phase, every live mortal planet lies within the original safe distance of some live sun |
| `Physics.Tick` | Zapoctak.Net1/Zapoctak.Net1/PhysicsEngine.cs:49-55 | a tick keeps the list lengths and only appends keepers |
| `Physics.TickOnlyDestroys` | Zapoctak.Net1/Zapoctak.Net1/PhysicsEngine.cs:49-55 | after the move, the rest of the tick only destroys and keeps the time limit non-negative |
| `Physics.TickNeverRevives` | Zapoctak.Net1/Zapoctak.Net1/PhysicsEngine.cs:49-55 | no destroyed sun, planet or power-up is alive after a tick |
| `LevelInput.ReadLineFrom` | Zapoctak.Net1/Zapoctak.Net1/LevelInputReader.cs:174-186 | a successful read consumes at least one line when some remain, and gives null without consuming at the end |
| `LevelInput.ReadLineSkipsComments` | Zapoctak.Net1/Zapoctak.Net1/LevelInputReader.cs:174-186 | `ReadLine` skips '#' lines. It returns the next non-comment line, or "" when the file ends on a comment, or null at the end. It faults only at an empty line among comments |
| `LevelInput.TextLine` | Zapoctak.Net1/Zapoctak.Net1/LevelInputReader.cs:145 | a required text line consumes at least one line |
| `LevelInput.IntLine` | Zapoctak.Net1/Zapoctak.Net1/LevelInputReader.cs:93-96 | an `int.Parse(ReadLine())` consumes at least one line |
| `LevelInput.RealLine` | Zapoctak.Net1/Zapoctak.Net1/LevelInputReader.cs:75-79 | a `double.Parse(ReadLine())` consumes at least one line |
| `LevelInput.SunLine` | Zapoctak.Net1/Zapoctak.Net1/LevelInputReader.cs:31-35 | a sun record consumes at least one line; its fields are split on every `char.IsWhiteSpace` character |
| `LevelInput.PlanetLine` | Zapoctak.Net1/Zapoctak.Net1/LevelInputReader.cs:54-58 | a planet record consumes at least one line; its fields are split on every `char.IsWhiteSpace` character |
| `LevelInput.CoordinatesLine` | Zapoctak.Net1/Zapoctak.Net1/LevelInputReader.cs:122-134 | a coordinates record consumes at least one line |
| `LevelInput.CoordinatesRoundTrip` | Zapoctak.Net1/Zapoctak.Net1/LevelInputReader.cs:122-134 | coordinates printed space-separated with a round-tripping number format read back as the same coordinates |
| `LevelInput.SectionLength` | Zapoctak.Net1/Zapoctak.Net1/LevelInputReader.cs:29-36 | a section of n records that succeeds holds exactly n values |
| `LevelInput.SectionFaultSticks` | Zapoctak.Net1/Zapoctak.Net1/LevelInputReader.cs:29-36 | once a record faults, the whole section faults with that fault |
| `LevelInput.CountedSectionMeaning` | Zapoctak.Net1/Zapoctak.Net1/LevelInputReader.cs:26-27 | a negative count throws where the list gets it as capacity (newer suns and planets, both generations' win conditions). Otherwise a negative count reads nothing, and a non-negative count n yields n records |
| `LevelInput.NextLevelPathMeaning` | Zapoctak.Net1/Zapoctak.Net1/LevelInputReader.cs:63-73 | the next path is `LevelPath + name` iff a name was read, is not "null" in any case, and the file exists; otherwise there is none |
| `LevelInput.DescriptionOfPlainLines` | Zapoctak.Net1/Zapoctak.Net1/LevelInputReader.cs:162-172 | without comments or blank lines, the description is every remaining line, each ended by a line break |
| `LevelInput.PhysicsLines` | Zapoctak.Net1/Zapoctak.Net1/LevelInputReader.cs:81-91 | the physics section consumes at least four lines |
| `LevelInput.LevelInputReader.constructor` | Zapoctak.Net1/Zapoctak.Net1/LevelInputReader.cs:14-18 | a new reader is at the start of its file |
| `LevelInput.LevelInputReader.ReadLine` | Zapoctak.Net1/Zapoctak.Net1/LevelInputReader.cs:174-186 | the do-while loop returns what `ReadLineFrom` specifies and leaves the stream at its next position |
| `LevelInput.LevelInputReader.ReadText` | Zapoctak.Net1/Zapoctak.Net1/LevelInputReader.cs:145 | reading a required line agrees with `TextLine` |
| `LevelInput.LevelInputReader.ReadInt` | Zapoctak.Net1/Zapoctak.Net1/LevelInputReader.cs:95 | reading an integer line agrees with `IntLine` |
| `LevelInput.LevelInputReader.ReadReal` | Zapoctak.Net1/Zapoctak.Net1/LevelInputReader.cs:77 | reading a real line agrees with `RealLine` |
| `LevelInput.LevelInputReader.ReadCoordinates` | Zapoctak.Net1/Zapoctak.Net1/LevelInputReader.cs:122-134 | `ReadCoordinates` agrees with `CoordinatesLine` |
| `LevelInput.LevelInputReader.ReadSuns` | Zapoctak.Net1/Zapoctak.Net1/LevelInputReader.cs:24-39 | the counted loop over sun lines agrees with `CountedSection(…, SunLine)` |
| `LevelInput.LevelInputReader.ReadPlanets` | Zapoctak.Net1/Zapoctak.Net1/LevelInputReader.cs:47-61 | the counted loop over planet lines agrees with `CountedSection(…, PlanetLine)` |
| `LevelInput.LevelInputReader.ReadNextLevelPath` | Zapoctak.Net1/Zapoctak.Net1/LevelInputReader.cs:63-73 | `ReadNextLevelPath` agrees with `NextLevelPathLine` |
| `LevelInput.LevelInputReader.ReadGraphicsEngine` | Zapoctak.Net1/Zapoctak.Net1/LevelInputReader.cs:75-79 | the scale factor is one real line |
| `LevelInput.LevelInputReader.ReadPhysicsEngine` | Zapoctak.Net1/Zapoctak.Net1/LevelInputReader.cs:81-91 | the four physics lines, in file order, agree with `PhysicsLines` |
| `LevelInput.LevelInputReader.ReadTimeLimit` | Zapoctak.Net1/Zapoctak.Net1/LevelInputReader.cs:93-96 | the time limit is one integer line |
| `LevelInput.LevelInputReader.ReadDescription` | Zapoctak.Net1/Zapoctak.Net1/LevelInputReader.cs:162-172 | the loop to the end of the stream agrees with `DescriptionFrom` |
| `LevelReader.ParsePowerUp` | Zapoctak.Net1/Zapoctak.Net1/PowerUp.cs:113-118 | a parsed power-up sits at the coordinates read, alive, with the effect of the parser used, and consumed two lines or more |
| `LevelReader.PowerUpRecordMeaning` | Zapoctak.Net1/Zapoctak.Net1/LevelInputReader.cs:106-110 | with a consistent registry, a parsed record's id was read and registered, and names the parser of its effect |
| `LevelReader.UnknownIdFaults` | Zapoctak.Net1/Zapoctak.Net1/LevelInputReader.cs:111-114 | an id missing from the registry faults with that id |
| `LevelReader.GoalDescription` | Zapoctak.Net1/Zapoctak.Net1/LevelInputReader.cs:145-156 | a goal's condition is its parsed line and is boolean; a parsed non-boolean line fails the cast and ends the read. Its description is the generated one when the next line is "auto" in any case, else that line lower-cased |
| `LevelReader.ParseWith` | Zapoctak.Net1/Zapoctak.Net1/PowerUp.cs:113-118 | the parser call on the reader agrees with `ParsePowerUp` |
| `LevelReader.ReadPowerUps` | Zapoctak.Net1/Zapoctak.Net1/LevelInputReader.cs:98-118 | the power-up loop agrees with the counted power-up section (no capacity, so a negative count reads nothing) |
| `LevelReader.ReadPowerUp` | Zapoctak.Net1/Zapoctak.Net1/LevelInputReader.cs:106-114 | one id line and its dispatched parser agree with `PowerUpRecord` |
| `LevelReader.ReadWinConditions` | Zapoctak.Net1/Zapoctak.Net1/LevelInputReader.cs:136-160 | the condition loop agrees with the counted goal section |
| `LevelReader.ReadGoal` | Zapoctak.Net1/Zapoctak.Net1/LevelInputReader.cs:145-156 | one condition line and its description line agree with `GoalRecord` |
| `Plugins.Registered` | Zapoctak.Net1/Zapoctak.Net1/PowerUpPluginLoader.cs:22-28 | `Register` adds the key when it is absent and otherwise keeps the first value; all other keys are unchanged |
| `Plugins.RegisterAllKeeps` | Zapoctak.Net1/Zapoctak.Net1/PowerUpPluginLoader.cs:58-68 | registering plugins never overrides an existing entry, and every plugin's id ends up registered |
| `Plugins.BuiltInWins` | Zapoctak.Net1/Zapoctak.Net1/PowerUpPluginLoader.cs:30-35 | whatever the plugins, "ReduceTime" stays bound to the built-in parser |
| `Plugins.RegisterAllConsistent` | Zapoctak.Net1/Zapoctak.Net1/PowerUpPluginLoader.cs:67 | registering under each parser's own id keeps every key naming its parser |
| `Plugins.RegisterAllAppend` | Zapoctak.Net1/Zapoctak.Net1/PowerUpPluginLoader.cs:58-68 | registering one more parser is one more `Register` |
| `Plugins.RegisterAllConcat` | Zapoctak.Net1/Zapoctak.Net1/PowerUpPluginLoader.cs:49-71 | registering two batches in turn equals registering them together |
| `Plugins.PowerUpPluginLoader.constructor` | Zapoctak.Net1/Zapoctak.Net1/PowerUpPluginLoader.cs:30-35 | a new loader holds exactly the built-in `ReduceTime` parser |
| `Plugins.PowerUpPluginLoader.LoadPlugins` | Zapoctak.Net1/Zapoctak.Net1/PowerUpPluginLoader.cs:42-72 | loading succeeds iff every assembly defines a parser type and all have parameterless constructors; the registry is then the old one plus every created parser, first registration winning |
| `Plugins.PowerUpPluginLoader.LoadAssembly` | Zapoctak.Net1/Zapoctak.Net1/PowerUpPluginLoader.cs:51-69 | one assembly loads iff it is loadable, and then registers each created parser in order |
| `Plugins.PowerUpPluginLoader.Register` | Zapoctak.Net1/Zapoctak.Net1/PowerUpPluginLoader.cs:22-28 | the registry afterwards is `Registered(old, key, value)` |
| `Levels.ReadLevelFile` | Zapoctak.Net1/Zapoctak.Net1/Level.cs:255-265 | the eight reads in file order agree with `LevelFile` |
| `Levels.ReadLevelInput` | Zapoctak.Net1/Zapoctak.Net1/Level.cs:249-271 | loading a path yields the parsed file, or the fault. A missing file faults with its path, before the try |
| `Levels.Conditions` | Zapoctak.Net1/Zapoctak.Net1/Level.cs:262 | the conditions list is the goals' conditions, in order |
| `Levels.Descriptions` | Zapoctak.Net1/Zapoctak.Net1/Level.cs:263 | the goal descriptions are the goals' descriptions, in order |
| `Levels.Tally` | Zapoctak.Net1/Zapoctak.Net1/Level.cs:227-233 | the intended count: one slot per planet type (Good, Neutral, Bad) |
| `Levels.TallyCountsLivePlanets` | Zapoctak.Net1/Zapoctak.Net1/Level.cs:227-233 | when every live planet has a declared type, the three counts add up to the number of live planets |
| `Levels.CountedAsWritten` | Zapoctak.Net1/Zapoctak.Net1/Level.cs:227-233 | the counting loop as written (`Initialize()` zeroes nothing) returns three counts |
| `Levels.RecountDoubles` | Zapoctak.Net1/Zapoctak.Net1/Level.cs:229-232 | a single live Good planet counted twice as written reads 2, where the tally is 1 |
| `Levels.WrappedLimitEndsAtOnce` | Zapoctak.Net1/Zapoctak.Net1/Level.cs:156-159 | with `timeLimit` = 2147484, the wrapped product ends the level at 0 ms, though the intended limit has not passed |
| `Levels.TimeIsUpMeaning` | Zapoctak.Net1/Zapoctak.Net1/Level.cs:156-159 | the written and intended checks agree whenever `1000 * timeLimit` fits in 32 bits. Time is not up before the limit, and once up it stays up |
| `Levels.FindLiveHit` | Zapoctak.Net1/Zapoctak.Net1/PhysicsEngine.cs:191-200 | the loop returns `FirstLiveHit` |
| `Levels.OverlapsSomeSun` | Zapoctak.Net1/Zapoctak.Net1/PhysicsEngine.cs:157-164 | the loop with `break` returns whether the body overlaps any sun |
| `Levels.CountByType` | Zapoctak.Net1/Zapoctak.Net1/Level.cs:227-233 | the zeroed counting loop succeeds iff no live planet has an undeclared type (else the index faults), and then yields `Tally` |
| `Levels.AfterKeepersMeaning` | Zapoctak.Net1/Powerups/TemporaryDestroy.cs:81-94 | running the first `count` keepers, when ended, drops them and changes nothing else. When running, it keeps exactly those not yet due, and revives every due target |
| `Levels.ApplySunHook` | Zapoctak.Net1/Zapoctak.Net1/PhysicsEngine.cs:196 | dispatching `ApplySun` on the live level performs `PowerUps.ApplySun`, with the same 32-bit wrap of the time limit |
| `Levels.ApplyPlanetHook` | Zapoctak.Net1/Zapoctak.Net1/PhysicsEngine.cs:207 | dispatching `ApplyPlanet` on the live level performs `PowerUps.ApplyPlanet`, with the same 32-bit wrap of the time limit |
| `Levels.ApplyPowerupHook` | Zapoctak.Net1/Zapoctak.Net1/PhysicsEngine.cs:218-219 | dispatching `ApplyPowerup` on the live level performs `PowerUps.ApplyPowerup`, with the same 32-bit wrap of the time limit |
| `Levels.ApplyTooFarHook` | Zapoctak.Net1/Zapoctak.Net1/PhysicsEngine.cs:141 | dispatching `ApplyTooFar` on the live level performs `PowerUps.ApplyTooFar` |
| `Levels.ApplyTimeOverHook` | Zapoctak.Net1/Zapoctak.Net1/Form1.cs:82-85 | dispatching `ApplyTimeOver` leaves the level unchanged |
| `Levels.PhysicsEngine.constructor` | Zapoctak.Net1/Zapoctak.Net1/PhysicsEngine.cs:11-21 | the engine holds the four physics settings read from the file |
| `Levels.PhysicsEngine.Reload` | Zapoctak.Net1/Zapoctak.Net1/Level.cs:258 | re-reading the level resets the safe distance and the gravitational constant |
| `Levels.PhysicsEngine.SetGravityConst` | Zapoctak.Net1/Zapoctak.Net1/PhysicsEngine.cs:41-46 | the `GravityConst` setter stores the value |
| `Levels.PhysicsEngine.Tick` | Zapoctak.Net1/Zapoctak.Net1/PhysicsEngine.cs:49-55 | one engine tick performs `Physics.Tick` on the level |
| `Levels.PhysicsEngine.UpdatePositions` | Zapoctak.Net1/Zapoctak.Net1/PhysicsEngine.cs:78-88 | the position loops perform `Physics.Move` |
| `Levels.PhysicsEngine.CheckRadii` | Zapoctak.Net1/Zapoctak.Net1/PhysicsEngine.cs:59-68 | the radius loop performs `Physics.CheckRadii` |
| `Levels.PhysicsEngine.CheckCollisions` | Zapoctak.Net1/Zapoctak.Net1/PhysicsEngine.cs:150-183 | the collision phase performs `Physics.Collisions` |
| `Levels.PhysicsEngine.CheckPowerUpCollisions` | Zapoctak.Net1/Zapoctak.Net1/PhysicsEngine.cs:185-227 | the power-up loop performs `Physics.PowerUpsUpTo` over all power-ups |
| `Levels.PhysicsEngine.PowerUpStepAt` | Zapoctak.Net1/Zapoctak.Net1/PhysicsEngine.cs:189-225 | one iteration with its three searches and `goto Next` performs `Physics.PowerUpStep` |
| `Levels.PhysicsEngine.CheckPlanetsAgainstSuns` | Zapoctak.Net1/Zapoctak.Net1/PhysicsEngine.cs:155-165 | the planet–sun loop performs `Physics.PlanetSunPass` |
| `Levels.PhysicsEngine.CheckPlanetPairs` | Zapoctak.Net1/Zapoctak.Net1/PhysicsEngine.cs:167-182 | the pair loop up to `Count - 1` performs `Physics.PairsUpTo` |
| `Levels.PhysicsEngine.PairStepAt` | Zapoctak.Net1/Zapoctak.Net1/PhysicsEngine.cs:169-181 | the inner loop with `break` performs `Physics.PairStep` |
| `Levels.PhysicsEngine.CountSunsInRange` | Zapoctak.Net1/Zapoctak.Net1/PhysicsEngine.cs:116-122 | the counting loop returns the number of live suns within the safe distance |
| `Levels.PhysicsEngine.CheckDistanceFromSuns` | Zapoctak.Net1/Zapoctak.Net1/PhysicsEngine.cs:111-147 | the two range loops perform `Physics.CheckDistanceFromSuns` |
| `Levels.PhysicsEngine.ExilePlanets` | Zapoctak.Net1/Zapoctak.Net1/PhysicsEngine.cs:113-127 | the planet range loop performs `Physics.ExilePlanets` |
| `Levels.PhysicsEngine.ExilePowerUpAt` | Zapoctak.Net1/Zapoctak.Net1/PhysicsEngine.cs:131-143 | one power-up's range check, with `ApplyTooFar` before the destroy, performs `Physics.ExilePowerUpStep` |
| `Levels.Level.constructor` | Zapoctak.Net1/Zapoctak.Net1/Level.cs:107-113 | a new level is the loaded file, not running, not ended, with no next level, zero counts, the lose-message header, and the description header followed by the goal lines and the file's text |
| `Levels.Level.InitLevel` | Zapoctak.Net1/Zapoctak.Net1/Level.cs:117-126 | re-initialising loads the file's lists, time limit, goals and physics, zeroes the counts, drops keepers and appends the goal lines and text to the description |
| `Levels.Level.LoadLists` | Zapoctak.Net1/Zapoctak.Net1/Level.cs:255-265 | each field is assigned the value read from the file |
| `Levels.Level.Tick` | Zapoctak.Net1/Zapoctak.Net1/Level.cs:129-134 | a level tick performs `Physics.Tick` on its state |
| `Levels.Level.SetTimeLimit` | Zapoctak.Net1/Zapoctak.Net1/Level.cs:75-79 | the setter stores the clamped value and changes nothing else |
| `Levels.Level.CheckTimeLimit` | Zapoctak.Net1/Zapoctak.Net1/Level.cs:156-159 | the check is whether elapsed ms exceed 1000 · time limit (the corrected form, see Findings) |
| `Levels.Level.Start` | Zapoctak.Net1/Zapoctak.Net1/Level.cs:171-176 | the level runs afterwards |
| `Levels.Level.Stop` | Zapoctak.Net1/Zapoctak.Net1/Level.cs:179-184 | the level does not run afterwards |
| `Levels.Level.End` | Zapoctak.Net1/Zapoctak.Net1/Level.cs:195-199 | the level is stopped and ended |
| `Levels.Level.Reset` | Zapoctak.Net1/Zapoctak.Net1/Level.cs:187-192 | the level is reloaded, stopped, not ended, without keepers, with zero counts; the goal lines and text are appended again to the description |
| `Levels.Level.NextLevel` | Zapoctak.Net1/Zapoctak.Net1/Level.cs:34-43 | With no path: null. With a cached level: that level. Otherwise the file at the path is loaded once, into a fresh level linked back to this one; a load fault is returned and nothing is cached |
| `Levels.Level.Destroy` | Zapoctak.Net1/Powerups/TemporaryDestroy.cs:42-54 | setting the target's flag performs `PowerUps.Destroy` |
| `Levels.Level.Revive` | Zapoctak.Net1/Powerups/TemporaryDestroy.cs:91 | clearing the target's flag performs `PowerUps.Revive` |
| `Levels.Level.DestroyPowerUp` | Zapoctak.Net1/Zapoctak.Net1/PhysicsEngine.cs:197 | setting a power-up's flag performs `Physics.DestroyPowerUp` |
| `Levels.Level.DestroyPlanet` | Zapoctak.Net1/Zapoctak.Net1/PhysicsEngine.cs:177-178 | setting a planet's flag performs `Physics.DestroyPlanet` |
| `Levels.Level.DestroyForAWhile` | Zapoctak.Net1/Powerups/TemporaryDestroy.cs:40-56 | destroying and subscribing a keeper performs `PowerUps.DestroyForAWhile` |
| `Levels.Level.CheckKeeper` | Zapoctak.Net1/Powerups/TemporaryDestroy.cs:81-94 | one keeper's handler performs `PowerUps.CheckTime` and says whether it stays subscribed |
| `Levels.Level.RunKeepers` | Zapoctak.Net1/Powerups/TemporaryDestroy.cs:81-94 | raising the timer event over the keepers subscribed before the tick performs `AfterKeepers` |
| `Levels.Level.UpdatePlanetCountByType` | Zapoctak.Net1/Zapoctak.Net1/Level.cs:227-233 | the counts become the live-planet tally iff every live planet has a declared type (the corrected, zeroing form; see Findings) |
| `Levels.Level.CheckVictory` | Zapoctak.Net1/Zapoctak.Net1/Level.cs:208-222 | Counts are tallied first. Without a fault, it returns whether every condition holds, and each failed goal's description is appended to the lose message on a line of its own, in order |
| `Forms.ClampMeaning` | Zapoctak.Net1/Zapoctak.Net1/Form1.cs:157-162 | the wheel's clamp lies in the range, is the value itself when in range, and is the nearest in-range value otherwise |
| `Forms.WheelChangeSign` | Zapoctak.Net1/Zapoctak.Net1/Form1.cs:155 | the gravity change has the wheel delta's sign and is odd in it |
| `Forms.Form1.constructor` | Zapoctak.Net1/Zapoctak.Net1/Form1.cs:15-23 | the form starts on the first level with the counter at zero |
| `Forms.Form1.UpdateButtons` | Zapoctak.Net1/Zapoctak.Net1/Form1.cs:101-110 | Next is enabled iff there is a next path, Previous iff there is a previous level. The start button shows pause iff running and is enabled iff not ended |
| `Forms.Form1.Activate` | Zapoctak.Net1/Zapoctak.Net1/Level.cs:137-153 | The bar gets the engine's gravity range, value max(gravity, minimum) and small change (max − min) / 20. This succeeds iff the value fits under the maximum; otherwise the bar is unchanged |
| `Forms.Form1.StartStopClick` | Zapoctak.Net1/Zapoctak.Net1/Form1.cs:44-56 | the button toggles running and its label shows the new state |
| `Forms.Form1.SwitchLevelTo` | Zapoctak.Net1/Zapoctak.Net1/Form1.cs:61-70 | the level becomes current. Activation succeeds iff the level's gravity, raised to its minimum, is at most its maximum; then the bar holds that range, position and a twentieth-of-range notch, and the label and buttons show the level. On failure the bar is unchanged |
| `Forms.Form1.PreviousClick` | Zapoctak.Net1/Zapoctak.Net1/Form1.cs:115-120 | the current level is stopped and its previous level becomes current. The click succeeds iff that level's gravity fits its bar range, and then the bar, label and buttons show it |
| `Forms.Form1.NextClick` | Zapoctak.Net1/Zapoctak.Net1/Form1.cs:125-130 | the current level is stopped. A cached next level becomes current. Otherwise the next file is loaded: a fault crashes the form and leaves the current level, and a good load becomes current as a fresh level holding the file's data. The click succeeds iff the next level's gravity fits its bar range; then the level links back and the bar, label and buttons show it |
| `Forms.Form1.LoadNext` | Zapoctak.Net1/Zapoctak.Net1/Form1.cs:128 | the `NextLevel` getter from the window. A cached next level is returned as it is. Otherwise it succeeds iff the file loads, giving a fresh level that holds the loaded data and links back; a fault is reported. The result joins the window's levels |
| `Forms.Form1.RestartClick` | Zapoctak.Net1/Zapoctak.Net1/Form1.cs:141-147 | the current level is reloaded, stopped and not ended, without keepers, and the label and buttons are refreshed. Activation succeeds iff the file's gravity fits its range, and then sets the bar; otherwise the bar is unchanged |
| `Forms.Form1.GravityScroll` | Zapoctak.Net1/Zapoctak.Net1/Form1.cs:136-139 | the engine's gravity becomes the bar's value |
| `Forms.Form1.MouseWheel` | Zapoctak.Net1/Zapoctak.Net1/Form1.cs:153-165 | the bar moves by `SmallChange * Delta / 50` (truncated), clamped into its range, and the engine takes the new value |
| `Forms.Form1.Timer1Tick` | Zapoctak.Net1/Zapoctak.Net1/Form1.cs:76-97 | Each tick runs the physics; every tenth, once time is up, the level ends with the win or lose message. The keepers subscribed before the tick then run. The counter advances mod 10 (corrected time check, see Findings) |
| `Forms.Form1.CheckTimeThenKeepers` | Zapoctak.Net1/Zapoctak.Net1/Form1.cs:80-95 | the time-up branch and the keeper handlers, after the physics tick (corrected time check, see Findings) |
| `Forms.Form1.TimeUpThenKeepers` | Zapoctak.Net1/Zapoctak.Net1/Form1.cs:80-95 | On the tenth tick with the time up, the level ends and is judged. Unless judging threw, the counter wraps to 0 and the subscribed keepers run with the level ended (corrected time check, see Findings) |
| `Forms.Form1.AdvanceAndRunKeepers` | Zapoctak.Net1/Zapoctak.Net1/Form1.cs:95 | the counter advances mod 10, then the keepers subscribed before the tick run (`AfterKeepers`) |
| `Forms.Form1.TimeOver` | Zapoctak.Net1/Zapoctak.Net1/Form1.cs:91-93 | Time up: the level ends and the buttons refresh. The label shows the win message, or the lose message with each failed goal appended (corrected time check, see Findings) |
| `Forms.Form1.ApplyTimeOverAll` | Zapoctak.Net1/Zapoctak.Net1/Form1.cs:82-85 | running every live power-up's time-over hook leaves the level unchanged |
| `Forms.Load` | Zapoctak.Net1/Zapoctak.Net1/Form1.cs:29-38 | start-up succeeds iff every plugin loads, the first level loads with the plugins registered, and its gravity fits its bar range. A rejected plugin or a faulty level crashes with that fault. On success the form shows the first level with its description and buttons |
| `Forms.ShowFirstLevel` | Zapoctak.Net1/Zapoctak.Net1/Form1.cs:33-36 | succeeds iff the level's gravity fits its bar range, and otherwise fails with the scroll-bar crash. On success the form shows the first level read from its path, with the activated bar, its description on the label and buttons matching it |
| `LegacyPhysics.OnlyDestroysTransitive` | Zapoctak.Net1/ZapoctakProg2/PhysicsEngine.cs:45-51 | "only destroys" composes across the older passes |
| `LegacyPhysics.SetTimeLimit` | Zapoctak.Net1/ZapoctakProg2/Level.cs:72-76 | the older setter stores `Math.Max(0, value)` and changes nothing else |
| `LegacyPhysics.ReduceTimeEffects` | Zapoctak.Net1/ZapoctakProg2/PowerUp.cs:80-106 | The older hooks change only the time limit. Good planet or sun: minus amount. Bad planet: plus amount. Other types: nothing. Another power-up: minus the `int` cast of ceil(1.5 · amount). Every sum wraps at 32 bits before the clamp; without overflow it is the exact clamped value |
| `LegacyPhysics.Move` | Zapoctak.Net1/ZapoctakProg2/PhysicsEngine.cs:74-84 | live planets and power-ups take one drift step; destroyed ones, suns and the time limit stay |
| `LegacyPhysics.CheckRadii` | Zapoctak.Net1/ZapoctakProg2/PhysicsEngine.cs:55-64 | a planet is destroyed afterwards iff it was already or its radius is below `MinimumRadius` (no immortality in this generation) |
| `LegacyPhysics.DestroyPowerUp` | Zapoctak.Net1/ZapoctakProg2/PhysicsEngine.cs:198 | setting a power-up's flag destroys it and touches only the power-up list |
| `LegacyPhysics.HitThenDestroy` | Zapoctak.Net1/ZapoctakProg2/PhysicsEngine.cs:197-198 | a hook that touched only the time limit, followed by destroying the power-up, only destroys |
| `LegacyPhysics.PowerUpStep` | Zapoctak.Net1/ZapoctakProg2/PhysicsEngine.cs:190-225 | one power-up's turn only destroys and keeps the time limit non-negative |
| `LegacyPhysics.PowerUpsUpTo` | Zapoctak.Net1/ZapoctakProg2/PhysicsEngine.cs:186-227 | the older power-up pass only destroys |
| `LegacyPhysics.SunHitComesFirst` | Zapoctak.Net1/ZapoctakProg2/PhysicsEngine.cs:192-201 | a live power-up hitting a live sun runs `ApplySun` and is destroyed |
| `LegacyPhysics.PlanetHitOnlyWithoutSun` | Zapoctak.Net1/ZapoctakProg2/PhysicsEngine.cs:203-212 | with no live sun hit, the first live planet hit runs `ApplyPlanet`, then the power-up is destroyed |
| `LegacyPhysics.PowerUpPairOneSided` | Zapoctak.Net1/ZapoctakProg2/PhysicsEngine.cs:214-223 | in a power-up pair only the earlier power-up's hook runs, and the later power-up is untouched |
| `LegacyPhysics.QuietPowerUpChangesNothing` | Zapoctak.Net1/ZapoctakProg2/PhysicsEngine.cs:188-226 | a destroyed power-up, or one that hits nothing live, leaves the level unchanged |
| `LegacyPhysics.PlanetSunPass` | Zapoctak.Net1/ZapoctakProg2/PhysicsEngine.cs:155-165 | a planet is destroyed afterwards iff it was already or overlaps any sun, destroyed suns included |
| `LegacyPhysics.DestroyPlanet` | Zapoctak.Net1/ZapoctakProg2/PhysicsEngine.cs:178-179 | setting a planet's flag only destroys, and touches only the planet list |
| `LegacyPhysics.PairStep` | Zapoctak.Net1/ZapoctakProg2/PhysicsEngine.cs:170-182 | planet i's turn in the pair pass only destroys planets |
| `LegacyPhysics.PairsUpTo` | Zapoctak.Net1/ZapoctakProg2/PhysicsEngine.cs:168-183 | the pair pass only destroys planets |
| `LegacyPhysics.SettledPersists` | Zapoctak.Net1/ZapoctakProg2/PhysicsEngine.cs:168-183 | a settled planet stays settled under any later pass that only destroys |
| `LegacyPhysics.PairStepSettles` | Zapoctak.Net1/ZapoctakProg2/PhysicsEngine.cs:172-182 | after planet i's turn it is destroyed or overlaps no later live planet |
| `LegacyPhysics.PairsSettle` | Zapoctak.Net1/ZapoctakProg2/PhysicsEngine.cs:168-183 | each planet already handled stays settled to the end of the pass |
| `LegacyPhysics.NoLiveOverlapAfterPairs` | Zapoctak.Net1/ZapoctakProg2/PhysicsEngine.cs:168-183 | no two live planets overlap after the pair pass |
| `LegacyPhysics.Crashes` | Zapoctak.Net1/ZapoctakProg2/PhysicsEngine.cs:150-184 | the crash phase only destroys |
| `LegacyPhysics.CheckDistanceFromSuns` | Zapoctak.Net1/ZapoctakProg2/PhysicsEngine.cs:110-147 | a planet or power-up is destroyed afterwards iff it was already, or is out of range of every live sun. Suns and the time limit stay (the older `ApplyTooFar` is empty) |
| `LegacyPhysics.SurvivorsAreInRange` | Zapoctak.Net1/ZapoctakProg2/PhysicsEngine.cs:110-147 | after the phase every live planet and power-up lies within the safe distance of some live sun |
| `LegacyPhysics.Tick` | Zapoctak.Net1/ZapoctakProg2/PhysicsEngine.cs:45-51 | an older tick keeps the list lengths |
| `LegacyPhysics.TickNeverRevives` | Zapoctak.Net1/ZapoctakProg2/PhysicsEngine.cs:45-51 | no destroyed body is alive after an older tick, and the time limit stays non-negative |
| `LegacyReader.ReduceTimeRoundTrip` | Zapoctak.Net1/ZapoctakProg2/PowerUp.cs:117-127 | a `ReduceTime` power-up written as a coordinates line and an amount line parses back to itself |
| `LegacyReader.BuiltInRecords` | Zapoctak.Net1/ZapoctakProg2/LevelInputReader.cs:87-107 | with only the built-in registry, a record parses only under "ReduceTime", and any other id faults with that id |
| `LegacyReader.GoalKeepsText` | Zapoctak.Net1/ZapoctakProg2/LevelInputReader.cs:130-136 | an older goal's condition is its parsed line and is boolean (a non-boolean one fails the cast in `ExpressionParser.Parse`); its text is the next line verbatim (empty at the end), with no "auto" and no lower-casing |
| `LegacyReader.NegativePlanetCount` | Zapoctak.Net1/ZapoctakProg2/LevelInputReader.cs:36-50 | a negative planet count makes the newer reader throw, while the older one reads no planets |
| `LegacyReader.FilePlanets` | Zapoctak.Net1/ZapoctakProg2/LevelInputReader.cs:36-50 | the planets of a loaded older level are exactly those of the file's first section |
| `LegacyReader.LevelDescription` | Zapoctak.Net1/ZapoctakProg2/Level.cs:235-237 | the older description is the requirements header, the goal lines, then the rest of the file |
| `LegacyReader.ParseWith` | Zapoctak.Net1/ZapoctakProg2/PowerUp.cs:121-126 | the parser call on the reader agrees with `ParsePowerUp` |
| `LegacyReader.ReadPowerUp` | Zapoctak.Net1/ZapoctakProg2/LevelInputReader.cs:95-103 | one id line and its dispatched parser agree with `PowerUpRecord` |
| `LegacyReader.ReadPowerUps` | Zapoctak.Net1/ZapoctakProg2/LevelInputReader.cs:87-107 | the power-up loop agrees with the counted power-up section |
| `LegacyReader.ReadGoal` | Zapoctak.Net1/ZapoctakProg2/LevelInputReader.cs:132-135 | one condition line and one text line agree with `GoalRecord` |
| `LegacyReader.ReadWinConditions` | Zapoctak.Net1/ZapoctakProg2/LevelInputReader.cs:123-139 | the loop agrees with `WinConditionsSection`: the goals, and the header followed by each text on a line of its own |
| `LegacyReader.ReadLevelFile` | Zapoctak.Net1/ZapoctakProg2/Level.cs:227-237 | the older reads in file order agree with `LevelFile` |
| `LegacyReader.ReadLevelInput` | Zapoctak.Net1/ZapoctakProg2/Level.cs:221-243 | loading a path yields the parsed older file, or the fault; a missing file faults with its path |
| `LegacyReader.PowerUpPluginLoader.constructor` | Zapoctak.Net1/ZapoctakProg2/PowerUpPluginLoader.cs:31-35 | a new older loader holds exactly the built-in parser |
| `LegacyReader.PowerUpPluginLoader.Register` | Zapoctak.Net1/ZapoctakProg2/PowerUpPluginLoader.cs:23-29 | the older `Register` keeps the first value under a key |
| `LegacyLevels.ApplySunHook` | Zapoctak.Net1/ZapoctakProg2/PowerUp.cs:95-98 | the older `ApplySun` on the live level performs `LegacyPhysics.ApplySun`, with the same 32-bit wrap of the time limit |
| `LegacyLevels.ApplyPlanetHook` | Zapoctak.Net1/ZapoctakProg2/PowerUp.cs:80-93 | the older `ApplyPlanet` on the live level performs `LegacyPhysics.ApplyPlanet`, with the same 32-bit wrap of the time limit |
| `LegacyLevels.ApplyPowerupHook` | Zapoctak.Net1/ZapoctakProg2/PowerUp.cs:100-106 | the older `ApplyPowerup` on the live level performs `LegacyPhysics.ApplyPowerup`, with the same 32-bit wrap of the time limit |
| `LegacyLevels.PhysicsEngine.constructor` | Zapoctak.Net1/ZapoctakProg2/PhysicsEngine.cs:11-21 | the older engine holds the four physics settings |
| `LegacyLevels.PhysicsEngine.Reload` | Zapoctak.Net1/ZapoctakProg2/Level.cs:230 | re-reading the level resets the gravitational constant |
| `LegacyLevels.PhysicsEngine.SetGravityConst` | Zapoctak.Net1/ZapoctakProg2/PhysicsEngine.cs:31-42 | setting the gravitational constant stores the value |
| `LegacyLevels.PhysicsEngine.Tick` | Zapoctak.Net1/ZapoctakProg2/PhysicsEngine.cs:45-51 | one older engine tick performs `LegacyPhysics.Tick` with the engine's safe distance |
| `LegacyLevels.PhysicsEngine.UpdatePositions` | Zapoctak.Net1/ZapoctakProg2/PhysicsEngine.cs:74-84 | the position loops perform `LegacyPhysics.Move` |
| `LegacyLevels.PhysicsEngine.CheckRadii` | Zapoctak.Net1/ZapoctakProg2/PhysicsEngine.cs:55-64 | the radius loop performs `LegacyPhysics.CheckRadii` |
| `LegacyLevels.PhysicsEngine.CheckCrashes` | Zapoctak.Net1/ZapoctakProg2/PhysicsEngine.cs:150-184 | the crash phase performs `LegacyPhysics.Crashes` |
| `LegacyLevels.PhysicsEngine.CheckPowerUps` | Zapoctak.Net1/ZapoctakProg2/PhysicsEngine.cs:186-227 | the power-up loop performs `LegacyPhysics.PowerUpsUpTo` over all power-ups |
| `LegacyLevels.PhysicsEngine.PowerUpStepAt` | Zapoctak.Net1/ZapoctakProg2/PhysicsEngine.cs:190-225 | one iteration performs `LegacyPhysics.PowerUpStep` |
| `LegacyLevels.PhysicsEngine.CheckPlanetsAgainstSuns` | Zapoctak.Net1/ZapoctakProg2/PhysicsEngine.cs:155-165 | the planet–sun loop performs `LegacyPhysics.PlanetSunPass` |
| `LegacyLevels.PhysicsEngine.CheckPlanetPairs` | Zapoctak.Net1/ZapoctakProg2/PhysicsEngine.cs:168-183 | the pair loop performs `LegacyPhysics.PairsUpTo` |
| `LegacyLevels.PhysicsEngine.PairStepAt` | Zapoctak.Net1/ZapoctakProg2/PhysicsEngine.cs:170-182 | the inner loop performs `LegacyPhysics.PairStep` |
| `LegacyLevels.PhysicsEngine.CountSunsInRange` | Zapoctak.Net1/ZapoctakProg2/PhysicsEngine.cs:115-121 | the counting loop returns the number of live suns within the safe distance |
| `LegacyLevels.PhysicsEngine.CheckDistanceFromSuns` | Zapoctak.Net1/ZapoctakProg2/PhysicsEngine.cs:110-147 | the two range loops perform `LegacyPhysics.CheckDistanceFromSuns` |
| `LegacyLevels.Level.constructor` | Zapoctak.Net1/ZapoctakProg2/Level.cs:98-104 | a new older level is the loaded file, not running, not ended, with no next level and zero counts |
| `LegacyLevels.Level.InitLevel` | Zapoctak.Net1/ZapoctakProg2/Level.cs:108-117 | re-initialising loads the file and zeroes the counts |
| `LegacyLevels.Level.Tick` | Zapoctak.Net1/ZapoctakProg2/Level.cs:120-125 | a level tick performs `LegacyPhysics.Tick` |
| `LegacyLevels.Level.SetTimeLimit` | Zapoctak.Net1/ZapoctakProg2/Level.cs:72-76 | the setter performs `LegacyPhysics.SetTimeLimit` |
| `LegacyLevels.Level.CheckTimeLimit` | Zapoctak.Net1/ZapoctakProg2/Level.cs:147-150 | the check is whether elapsed ms exceed 1000 · time limit (the corrected form, see Findings) |
| `LegacyLevels.Level.Start` | Zapoctak.Net1/ZapoctakProg2/Level.cs:162-167 | the level runs afterwards |
| `LegacyLevels.Level.Stop` | Zapoctak.Net1/ZapoctakProg2/Level.cs:170-175 | the level does not run afterwards |
| `LegacyLevels.Level.End` | Zapoctak.Net1/ZapoctakProg2/Level.cs:186-190 | the level is stopped and ended |
| `LegacyLevels.Level.Reset` | Zapoctak.Net1/ZapoctakProg2/Level.cs:178-183 | the level is reloaded, stopped and not ended, with zero counts |
| `LegacyLevels.Level.NextLevel` | Zapoctak.Net1/ZapoctakProg2/Level.cs:33-42 | With no path: null. With a cached level: that level. Otherwise the file is loaded once, into a fresh level linked back; a load fault is returned and nothing is cached |
| `LegacyLevels.Level.DestroyPowerUp` | Zapoctak.Net1/ZapoctakProg2/PhysicsEngine.cs:198 | setting a power-up's flag performs `LegacyPhysics.DestroyPowerUp` |
| `LegacyLevels.Level.DestroyPlanet` | Zapoctak.Net1/ZapoctakProg2/PhysicsEngine.cs:178-179 | setting a planet's flag performs `LegacyPhysics.DestroyPlanet` |
| `LegacyLevels.Level.UpdatePlanetCountType` | Zapoctak.Net1/ZapoctakProg2/Level.cs:211-217 | the counts become the live-planet tally iff every live planet has a declared type (the corrected, zeroing form; see Findings) |
| `LegacyLevels.Level.CheckVictory` | Zapoctak.Net1/ZapoctakProg2/Level.cs:197-209 | after tallying, the result is the conditions in order, false at the first that fails; a faulting count gives none |
| `LegacyForms.Form1.constructor` | Zapoctak.Net1/ZapoctakProg2/Form1.cs:21-30 | the older form starts on the first level with the counter at zero |
| `LegacyForms.Form1.UpdateButtons` | Zapoctak.Net1/ZapoctakProg2/Form1.cs:76-92 | the buttons show the current level's state, as in the newer form |
| `LegacyForms.Form1.Activate` | Zapoctak.Net1/ZapoctakProg2/Level.cs:128-144 | the bar gets the engine's range, value and small change whenever the value fits under the maximum |
| `LegacyForms.Form1.StartStopClick` | Zapoctak.Net1/ZapoctakProg2/Form1.cs:34-46 | the button toggles running and its label shows the new state |
| `LegacyForms.Form1.SwitchLevelTo` | Zapoctak.Net1/ZapoctakProg2/Form1.cs:48-55 | the level becomes current. Activation succeeds iff its gravity, raised to the minimum, is at most the maximum; then the bar is set and the label and buttons show the level. On failure the bar is unchanged |
| `LegacyForms.Form1.PreviousClick` | Zapoctak.Net1/ZapoctakProg2/Form1.cs:94-99 | the current level is stopped and its previous level becomes current. The click succeeds iff that level's gravity fits its bar range, and then the bar, label and buttons show it |
| `LegacyForms.Form1.NextClick` | Zapoctak.Net1/ZapoctakProg2/Form1.cs:101-106 | the current level is stopped. A cached next level becomes current. Otherwise the next file is loaded: a fault crashes the form and leaves the current level, and a good load becomes current as a fresh level holding the file's data. The click succeeds iff the next level's gravity fits its bar range; then the level links back and the bar, label and buttons show it |
| `LegacyForms.Form1.LoadNext` | Zapoctak.Net1/ZapoctakProg2/Form1.cs:104 | the older `NextLevel` getter from the window. A cached next level is returned as it is. Otherwise it succeeds iff the file loads, giving a fresh level that holds the loaded data and links back; a fault is reported. The result joins the window's levels |
| `LegacyForms.Form1.RestartClick` | Zapoctak.Net1/ZapoctakProg2/Form1.cs:115-121 | the current level is reloaded, stopped and not ended, and the label and buttons are refreshed. Activation succeeds iff the file's gravity fits its range, and then sets the bar; otherwise the bar is unchanged |
| `LegacyForms.Form1.GravityScroll` | Zapoctak.Net1/ZapoctakProg2/Form1.cs:110-113 | the engine's gravity becomes the bar's value |
| `LegacyForms.Form1.MouseWheel` | Zapoctak.Net1/ZapoctakProg2/Form1.cs:125-138 | the bar moves by the truncated wheel change, clamped into its range, and the engine takes the new value |
| `LegacyForms.Form1.Timer1Tick` | Zapoctak.Net1/ZapoctakProg2/Form1.cs:58-73 | Each tick runs the older physics; every tenth, once time is up, the level ends. The label shows "Congratulations, You Win!" or "Sorry, You Lose". The counter advances mod 10 (corrected time check, see Findings) |
| `LegacyForms.Form1.TickLevel` | Zapoctak.Net1/ZapoctakProg2/Form1.cs:60 | the level's tick performs `LegacyPhysics.Tick` on its state and leaves the window consistent |
| `LegacyForms.Form1.CheckTime` | Zapoctak.Net1/ZapoctakProg2/Form1.cs:62-72 | the time-up branch of the older tick handler (corrected time check, see Findings) |
| `LegacyForms.Load` | Zapoctak.Net1/ZapoctakProg2/Form1.cs:21-30 | start-up succeeds iff the first level loads with the built-in parser and its gravity fits its bar range. A faulty level crashes with its fault. On success the form shows the first level with its description and buttons |
| `LegacyForms.ShowFirstLevel` | Zapoctak.Net1/ZapoctakProg2/Form1.cs:26-29 | succeeds iff the level's gravity fits its bar range, and otherwise fails with the scroll-bar crash. On success the form shows the first level built from the data read, with the activated bar, its description on the label and buttons matching it |
| `LoseConditions.EvaluateOnTally` | Zapoctak.Net1/ZapoctakProg2/Class1.cs:32-76 | on a live-planet tally of a list of at most `int.MaxValue` planets, each requirement breaks exactly when its count passes the number, and no check indexes out of range |
| `LoseConditions.Sum` | Zapoctak.Net1/ZapoctakProg2/Class1.cs:52-54 | the `foreach` total is an `int` |
| `LoseConditions.SumOfThree` | Zapoctak.Net1/ZapoctakProg2/Class1.cs:52-54 | three counts whose exact total fits in an `int` sum without wrapping |
| `LoseConditions.SumWraps` | Zapoctak.Net1/ZapoctakProg2/Class1.cs:52-55 | `int.MaxValue` and 1 wrap to `int.MinValue`, so a minimum of 1 total planets is reported as not met |
| `LoseConditions.TallySum` | Zapoctak.Net1/ZapoctakProg2/Class1.cs:52-54 | on a live-planet tally the wrapped total is the number of live planets |
| `LoseConditions.LabelRoundTrip` | Zapoctak.Net1/ZapoctakProg2/Class1.cs:40-44 | the number of a requirement reads back from its `ToString` text |
| `LoseConditions.LoseCondition.constructor` | Zapoctak.Net1/ZapoctakProg2/Class1.cs:17-30 | a condition keeps its number and shares the caller's count array |
| `LoseConditions.LoseCondition.Check` | Zapoctak.Net1/ZapoctakProg2/Class1.cs:35-39 | `Check` on the current array is `Evaluate`: met, not met with its message, or an index fault; the total is the wrapped 32-bit sum |
| `LoseConditions.LoseCondition.SumCounts` | Zapoctak.Net1/ZapoctakProg2/Class1.cs:50-57 | the `foreach` sum, with each `+=` wrapped at 32 bits, equals `Sum` of the array |
| `LoseConditions.LoseCondition.ToString` | Zapoctak.Net1/ZapoctakProg2/Class1.cs:40-44 | the text is the requirement's label followed by a number that parses back to the requirement's number |

## Left out

- Gravity (`UpdateVelocities`, `UpdateVelocity`, `ApplyBurns`) is left out. It uses `Math.Sqrt`, `Math.Pow` and floating point; each tick's velocities are taken as they are. Only positions drift.
- Floating point in general: positions, radii and distances are exact reals. Collision and range tests compare squared distances, which is exact for reals.
- `Parallel.ForEach` in `UpdatePositions` is modelled as a sequential loop. Each body is updated independently, so the order does not matter.
- Graphics is left out: `GraphicsEngine`, `Draw`, the picture box, `UpdateTimeLabel` and the time label. The scale factor is only stored.
- The stopwatch is the `nowMs`/`elapsedMs` parameter of each tick. Starting and stopping it is not modelled.
- The older generation's `PowerUpPluginLoader.LoadPlugins` and its plugin classes are left out. Their sources are not part of this model, so the older form loads with the built-in registry only.
- The engines receive their level as a method parameter instead of holding a back reference. `Reset`/`InitLevel` reuse the same engine and count-array objects instead of allocating new ones. The old objects become unreachable, so nothing can observe the difference.
- `TimeKeeper`s of levels that are not current are not run. In the program they stay subscribed to the shared timer and compare against their own stopped stopwatch.
- WinForms `ScrollBar` behaviour is left out: the `Maximum`/`Minimum` setters adjusting each other, `LargeChange`, and the exception a value out of range throws. `Activate` reports failure instead.
- `Forms.WheelChange`: the 32-bit overflow of `SmallChange * Delta` is not modelled, because wheel deltas are small.
- The older form's scroll handlers assign `CurrentLevel.Gravity` (ZapoctakProg2/Form1.cs:112 and 137), a member the older `Level` does not declare; it has a `Physics` property (ZapoctakProg2/Level.cs:23-24). The model reads the assignment as setting `Physics.GravityConst` through `SetGravityConst`.
- Only `IOException` is caught by `ReadLevelInput`, and nothing modelled raises it. Every fault the model can produce (parse errors, index errors, unknown ids, negative capacities) ends the load, so the error-description branch is left out.
- Nothing in the older game builds a lose condition (`Class1.cs`). They are modelled as a class, but no level uses them.
- The copy of the reader embedded in the older `Level.cs` (lines 248-405) is the same code as `ZapoctakProg2/LevelInputReader.cs`. It is not modelled separately.
- `DynamicExpression.ParseLambda` is the parameter `parseLambda`, and `.NET` number parsing is `parseInt`/`parseReal`. Compiled conditions are evaluated over the only two level members they reach: `PlanetCountByType[i]` and `Planets.Count`.
- `Levels.PhysicsEngine.Reload`, `LegacyLevels.PhysicsEngine.Reload`: the program builds a fresh engine on reload. The model resets the settings of the same engine, which is unobservable for the same reason as above.
- `Strings.ToLower`: the case map covers Basic Latin, Latin-1, Latin Extended-A (U+0130 excluded), basic Greek (U+0391-U+03A9) and basic Cyrillic (U+0400-U+042F). Capitals of other scripts, such as Armenian or Latin Extended-B, are kept as they are, where `ToLowerInvariant` lowers them.
- `LevelReader.GoalRecord`: the description is lower-cased through `Strings.ToLower`, so capitals outside the blocks it covers are kept.
- `LevelReader.GoalDescription`: states the description with the same partial case map as `Strings.ToLower`.
- `Int32.CastToInt`: an out-of-range `double` to `int` cast is unspecified in C#; the model takes `int.MinValue`, which x86 and x64 hardware give.
- `PowerUps.CeilThreeHalvesToInt`: out of range it takes `int.MinValue`, as `Int32.CastToInt` does.
- `Forms.Form1.Timer1Tick`: decides "time is up" with the corrected `Levels.TimeIsUp` from the Findings table, where Form1.cs:80 calls the wrapping `CheckTimeLimit`. The two differ only for time limits above 2147483 s (`Levels.TimeIsUpMeaning`).
- `Forms.Form1.CheckTimeThenKeepers`: uses the corrected time check, like `Forms.Form1.Timer1Tick`.
- `Forms.Form1.TimeUpThenKeepers`: its precondition is the corrected time check, like `Forms.Form1.Timer1Tick`.
- `Forms.Form1.TimeOver`: its precondition and its re-check (Form1.cs:87) are the corrected time check, like `Forms.Form1.Timer1Tick`.
- `LegacyForms.Form1.Timer1Tick`: uses the corrected time check, where ZapoctakProg2/Form1.cs:62 calls the wrapping `CheckTimeLimit`.
- `LegacyForms.Form1.CheckTime`: uses the corrected time check, like `LegacyForms.Form1.Timer1Tick`.
- `Forms.Form1.Timer1Tick`: the early `return` after the time-over hooks is dead code, because every `ApplyTimeOver` is empty. It is not a separate outcome.

## Findings

| source | as written | input that shows it | evidently intended | confidence | as-written member | corrected member |
|---|---|---|---|---|---|---|
| Zapoctak.Net1/Zapoctak.Net1/Level.cs:227-233 (and Zapoctak.Net1/ZapoctakProg2/Level.cs:211-217) | `planetCountByType.Initialize()` does nothing on an `int[]`, so a second count adds to the first | One live Good planet, counted twice, reads 2. This is latent: the form calls `CheckVictory` once per level run, and `Reset` allocates a fresh array | The counts are zeroed, then each live planet is counted once | not executed | `Levels.CountedAsWritten`, `Levels.RecountDoubles` | `Levels.Tally`, `Levels.TallyCountsLivePlanets`, `Levels.CountByType` |
| Zapoctak.Net1/Zapoctak.Net1/Level.cs:156-159 (and Zapoctak.Net1/ZapoctakProg2/Level.cs:147-150) | `1000 * timeLimit` is a 32-bit `int` product, which wraps for time limits above 2147483 s | With `timeLimit` = 2147484, the product wraps to a negative number, so the level ends at 0 ms | Elapsed ms are compared with the exact product | not executed | `Levels.TimeIsUpAsWritten`, `Levels.WrappedLimitEndsAtOnce` | `Levels.TimeIsUp`, `Levels.TimeIsUpMeaning` |
