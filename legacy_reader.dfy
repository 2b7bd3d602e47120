/**
 * The level file as the older game reads it (ZapoctakProg2/LevelInputReader.cs,
 * whose copy is also embedded in ZapoctakProg2/Level.cs, and
 * `Level.ReadLevelInput`), with its one power-up parser
 * (ZapoctakProg2/PowerUp.cs) and its parser registry
 * (ZapoctakProg2/PowerUpPluginLoader.cs).
 *
 * The line reader and the shared record formats are those of `LevelInput`.
 * The older generation differs in three places: `ReadSuns` and `ReadPlanets`
 * build their lists without a capacity, so a negative count reads nothing;
 * a goal's description line is kept as written; and the requirements text is
 * built by `ReadWinConditions` itself.
 */
module LegacyReader {
  import opened Wrappers
  import opened Strings
  import opened Bodies
  import opened LevelInput
  import opened WinConditions
  import opened LegacyPhysics
  import PowerUps
  import Plugins
  import LevelReader
  import Levels

  /** The older game's only built-in parser. */
  datatype Parser = ReduceTimeParser

  function PowerUpId(p: Parser): string {
    PowerUps.ReduceTimeId
  }

  /** `ReduceTimeParser.Parse`: a coordinates line, then the amount on a line of its own. */
  function ParsePowerUp(src: Source, pos: nat, p: Parser): Result<Read<PowerUp>, Fault> {
    var c :- CoordinatesLine(src, pos);
    var amount :- IntLine(src, c.next);
    Success(Read(PowerUp(FromCoordinates(c.value), amount.value), amount.next))
  }

  /** A printer whose every output is a line `ReadLine` returns as it is: not empty, not a comment. */
  ghost predicate Unmarked(show: real -> string) {
    forall x :: |show(x)| > 0 && show(x)[0] != '#'
  }

  /** The two lines a `ReduceTimePowerUp` is written as after its id. */
  function ReduceTimeLines(p: PowerUp, c: Coordinates, show: real -> string): seq<string> {
    [CoordinatesText(c, show), IntToString(p.reduceAmount)]
  }

  /**
   * `ReduceTimeParser.Parse` reads back the power-up written by
   * `ReduceTimeLines`, at rest and alive as every parsed object starts, and
   * stops right after the amount, whatever follows.
   */
  lemma ReduceTimeRoundTrip(c: Coordinates, amount: int, show: real -> string,
                            parseReal: string -> Option<real>, parseInt: string -> Option<int>, rest: seq<string>)
    requires Printable(show, parseReal, {' '}) && Unmarked(show)
    requires parseInt(IntToString(amount)) == Some(amount)
    ensures var p := PowerUp(FromCoordinates(c), amount);
      ParsePowerUp(Source(ReduceTimeLines(p, c, show) + rest, parseInt, parseReal), 0, ReduceTimeParser)
        == Success(Read(p, 2))
  {
    var p := PowerUp(FromCoordinates(c), amount);
    var lines := ReduceTimeLines(p, c, show) + rest;
    var src := Source(lines, parseInt, parseReal);
    CoordinatesRoundTrip(c, show, parseReal);
    assert lines[0] == CoordinatesText(c, show);
    assert lines[0][0] == show(c.xPos)[0];
    assert CoordinatesLine(src, 0) == Success(Read(c, 1));
    var text := IntToString(amount);
    assert lines[1] == text;
    assert |text| > 0 && text[0] != '#' by {
      if amount < 0 {
        assert text[0] == '-';
      } else {
        assert '0' <= text[0] <= '9';
      }
    }
    assert IntLine(src, 1) == Success(Read(amount, 2));
  }

  /**
   * One power-up record: the id line, looked up in the registry, then what
   * that parser reads. A null id throws in the lookup; an unknown id is a
   * format error.
   */
  function PowerUpRecord(src: Source, pos: nat, registry: map<string, Parser>): Result<Read<PowerUp>, Fault> {
    var id :- ReadLineFrom(src.lines, pos);
    if id.value.None? then Failure(UnexpectedEnd)
    else if id.value.value !in registry then Failure(UnknownPowerUp(id.value.value))
    else ParsePowerUp(src, id.next, registry[id.value.value])
  }

  function PowerUpRecords(registry: map<string, Parser>): (Source, nat) -> Result<Read<PowerUp>, Fault> {
    (s: Source, p: nat) => PowerUpRecord(s, p, registry)
  }

  /** `ReadPowerUps`: a count, then that many records; the list gets no capacity. */
  function PowerUpSection(src: Source, pos: nat, registry: map<string, Parser>): Result<Read<seq<PowerUp>>, Fault> {
    CountedSection(src, pos, false, PowerUpRecords(registry))
  }

  /** The registry the loader's constructor leaves. */
  function BuiltIn(): map<string, Parser> {
    map[PowerUps.ReduceTimeId := ReduceTimeParser]
  }

  /**
   * With the built-in registry a power-up record is read only under the id
   * "ReduceTime", and every other id stops the load naming that id.
   */
  lemma BuiltInRecords(src: Source, pos: nat)
    ensures var r := PowerUpRecord(src, pos, BuiltIn());
      r.Success? ==> ReadLineFrom(src.lines, pos).value.value == Some(PowerUps.ReduceTimeId)
    ensures var id := ReadLineFrom(src.lines, pos);
      id.Success? && id.value.value.Some? && id.value.value.value != PowerUps.ReduceTimeId ==>
        PowerUpRecord(src, pos, BuiltIn()) == Failure(UnknownPowerUp(id.value.value.value))
  {
  }

  /**
   * One older win condition: the lambda line, then the description line,
   * kept as written; a description line missing at the end of the file gives
   * the empty text, since `AppendLine(null)` appends only the line break.
   */
  function GoalRecord(src: Source, pos: nat, parseLambda: Lambda -> Option<Expr>): Result<Read<LevelReader.Goal>, Fault> {
    var line :- TextLine(src.lines, pos);
    var cond :- match Parse(line.value, parseLambda)
                case Some(c) => Success(c)
                case None => Failure(BadCondition(line.value));
    var _ :- if IsPredicate(cond) then Success(()) else Failure(BadCondition(line.value));
    var desc :- ReadLineFrom(src.lines, line.next);
    Success(Read(LevelReader.Goal(cond, if desc.value.Some? then desc.value.value else ""), desc.next))
  }

  function GoalRecords(parseLambda: Lambda -> Option<Expr>): (Source, nat) -> Result<Read<LevelReader.Goal>, Fault> {
    (s: Source, p: nat) => GoalRecord(s, p, parseLambda)
  }

  /**
   * `ReadWinConditions`: a count, passed as the list's capacity, then that
   * many goals; the text is the requirements header with each goal's
   * description on a line of its own.
   */
  function WinConditionsSection(src: Source, pos: nat, parseLambda: Lambda -> Option<Expr>)
    : Result<Read<(seq<LevelReader.Goal>, string)>, Fault>
  {
    var goals :- CountedSection(src, pos, true, GoalRecords(parseLambda));
    Success(Read((goals.value, Levels.RequirementsHeader + Levels.GoalLines(goals.value)), goals.next))
  }

  /**
   * Unlike the newer reader, the older one neither lower-cases a description
   * nor expands "auto": the goal's text is the line read, or empty at the end
   * of the file, and its condition is the parsed lambda line, which
   * `ExpressionParser.Parse` casts to `Func<Level, bool>`: a body that is not
   * boolean throws there.
   */
  lemma GoalKeepsText(src: Source, pos: nat, parseLambda: Lambda -> Option<Expr>)
    ensures var r := GoalRecord(src, pos, parseLambda);
      r.Success? ==>
        var line := TextLine(src.lines, pos).value;
        var desc := ReadLineFrom(src.lines, line.next).value;
        Parse(line.value, parseLambda) == Some(r.value.value.condition)
        && IsPredicate(r.value.value.condition)
        && r.value.next == desc.next
        && (desc.value.Some? ==> r.value.value.description == desc.value.value)
        && (desc.value.None? ==> r.value.value.description == "")
    ensures var line := TextLine(src.lines, pos);
      line.Success? && Parse(line.value.value, parseLambda).Some? && !IsPredicate(Parse(line.value.value, parseLambda).value) ==>
        GoalRecord(src, pos, parseLambda) == Failure(BadCondition(line.value.value))
  {
  }

  /** Everything the older `ReadLevelInput` takes from a level file. */
  datatype LevelData = LevelData(planets: seq<Planet>, suns: seq<Sun>, powerUps: seq<PowerUp>,
                                 physics: PhysicsSettings, scaleFactor: real, timeLimit: int,
                                 goals: seq<LevelReader.Goal>, nextLevelPath: Option<string>, description: string)

  /** What the older level needs besides the file. */
  datatype Runtime = Runtime(registry: map<string, Parser>,
                             parseLambda: Lambda -> Option<Expr>,
                             fileExists: string -> bool)

  /**
   * A whole older level file: planets, suns, power-ups, physics, graphics,
   * time limit, goals, next level, text. The description is the requirements
   * text followed by the rest of the file.
   */
  function LevelFile(src: Source, rt: Runtime): Result<LevelData, Fault> {
    var planets :- CountedSection(src, 0, false, PlanetLine);
    var suns :- CountedSection(src, planets.next, false, SunLine);
    var powerUps :- PowerUpSection(src, suns.next, rt.registry);
    var physics :- PhysicsLines(src, powerUps.next);
    var scale :- RealLine(src, physics.next);
    var time :- IntLine(src, scale.next);
    var conditions :- WinConditionsSection(src, time.next, rt.parseLambda);
    var next :- NextLevelPathLine(src, conditions.next, rt.fileExists);
    var text :- DescriptionFrom(src.lines, next.next);
    Success(LevelData(planets.value, suns.value, powerUps.value, physics.value, scale.value,
                      time.value, conditions.value.0, next.value, conditions.value.1 + text.value))
  }

  /**
   * A file whose planet count is negative stops the newer game's load, but
   * the older game reads no planets and goes on with the suns on the next line.
   */
  lemma NegativePlanetCount(src: Source, rt: Runtime, newer: LevelReader.Runtime)
    requires IntLine(src, 0).Success? && IntLine(src, 0).value.value < 0
    ensures LevelReader.LevelFile(src, newer) == Failure(NegativeCapacity)
    ensures LevelFile(src, rt).Success? ==> LevelFile(src, rt).value.planets == []
    ensures CountedSection(src, 0, false, PlanetLine) == Success(Read([], IntLine(src, 0).value.next))
  {
    assert CountedSection(src, 0, true, PlanetLine) == Failure(NegativeCapacity);
    assert CountedSection(src, 0, false, PlanetLine) == Success(Read([], IntLine(src, 0).value.next));
    FilePlanets(src, rt);
  }

  /** The planets of an older level file are those of its first section. */
  lemma FilePlanets(src: Source, rt: Runtime)
    ensures LevelFile(src, rt).Success? ==>
      CountedSection(src, 0, false, PlanetLine).Success?
      && LevelFile(src, rt).value.planets == CountedSection(src, 0, false, PlanetLine).value.value
  {
    var r := LevelFile(src, rt);
    if r.Success? {
      var planets := CountedSection(src, 0, false, PlanetLine).value;
      var suns := CountedSection(src, planets.next, false, SunLine).value;
      var powerUps := PowerUpSection(src, suns.next, rt.registry).value;
      var physics := PhysicsLines(src, powerUps.next).value;
      var scale := RealLine(src, physics.next).value;
      var time := IntLine(src, scale.next).value;
      var conditions := WinConditionsSection(src, time.next, rt.parseLambda).value;
      var next := NextLevelPathLine(src, conditions.next, rt.fileExists).value;
      assert r.value.planets == planets.value;
    }
  }

  /** The description the older level shows: the requirements, one goal per line, then the file's text. */
  lemma LevelDescription(src: Source, rt: Runtime)
    ensures var r := LevelFile(src, rt);
      r.Success? ==>
        exists text :: r.value.description == Levels.RequirementsHeader + Levels.GoalLines(r.value.goals) + text
  {
    var r := LevelFile(src, rt);
    if r.Success? {
      var planets := CountedSection(src, 0, false, PlanetLine).value;
      var suns := CountedSection(src, planets.next, false, SunLine).value;
      var powerUps := PowerUpSection(src, suns.next, rt.registry).value;
      var physics := PhysicsLines(src, powerUps.next).value;
      var scale := RealLine(src, physics.next).value;
      var time := IntLine(src, scale.next).value;
      var conditions := WinConditionsSection(src, time.next, rt.parseLambda).value;
      var next := NextLevelPathLine(src, conditions.next, rt.fileExists).value;
      var text := DescriptionFrom(src.lines, next.next).value;
      assert r.value.description == Levels.RequirementsHeader + Levels.GoalLines(r.value.goals) + text.value;
    }
  }

  /** What the older game reads from outside: files by path, number parsers, registry, lambda parser. */
  datatype Environment = Environment(files: string -> Option<seq<string>>,
                                     parseInt: string -> Option<int>,
                                     parseReal: string -> Option<real>,
                                     registry: map<string, Parser>,
                                     parseLambda: Lambda -> Option<Expr>)

  function RuntimeOf(env: Environment): Runtime {
    Runtime(env.registry, env.parseLambda, (p: string) => env.files(p).Some?)
  }

  /**
   * The older `ReadLevelInput` on the file at `path`: a missing file throws
   * before the `try`, and only an `IOException` is caught, so every fault
   * ends the load.
   */
  function LoadLevel(env: Environment, path: string): Result<LevelData, Fault> {
    match env.files(path)
    case None => Failure(MissingFile(path))
    case Some(lines) => LevelFile(Source(lines, env.parseInt, env.parseReal), RuntimeOf(env))
  }

  // ---------------------------------------------------------------- the reads, step by step

  /** `ReduceTimeParser.Parse`, reading through the reader. */
  method ParseWith(reader: LevelInputReader, p: Parser) returns (r: Result<PowerUp, Fault>)
    modifies reader`position
    ensures Follows(ParsePowerUp(reader.src, old(reader.position), p), r, reader.position)
  {
    var c := reader.ReadCoordinates();
    if c.Failure? {
      return Failure(c.error);
    }
    var amount := reader.ReadInt();
    if amount.Failure? {
      return Failure(amount.error);
    }
    return Success(PowerUp(FromCoordinates(c.value), amount.value));
  }

  /** The body of `ReadPowerUps`' loop. */
  method ReadPowerUp(reader: LevelInputReader, registry: map<string, Parser>) returns (r: Result<PowerUp, Fault>)
    modifies reader`position
    ensures Follows(PowerUpRecord(reader.src, old(reader.position), registry), r, reader.position)
  {
    var id := reader.ReadLine();
    if id.Failure? {
      return Failure(id.error);
    }
    if id.value.None? {
      return Failure(UnexpectedEnd);
    }
    if id.value.value !in registry {
      return Failure(UnknownPowerUp(id.value.value));
    }
    r := ParseWith(reader, registry[id.value.value]);
  }

  /** `ReadPowerUps` with the registry `PowerUpPluginLoader.Instance.Parsers`. */
  method ReadPowerUps(reader: LevelInputReader, registry: map<string, Parser>) returns (r: Result<seq<PowerUp>, Fault>)
    modifies reader`position
    ensures Follows(PowerUpSection(reader.src, old(reader.position), registry), r, reader.position)
  {
    var count := reader.ReadInt();
    if count.Failure? {
      return Failure(count.error);
    }
    var n := count.value;
    if n < 0 {
      return Success([]);
    }
    var start := reader.position;
    var powerUps: seq<PowerUp> := [];
    var i := 0;
    while i < n
      invariant 0 <= i <= n
      invariant Section(reader.src, start, i, PowerUpRecords(registry)) == Success(Read(powerUps, reader.position))
    {
      var item := ReadPowerUp(reader, registry);
      if item.Failure? {
        SectionFaultSticks(reader.src, start, i + 1, n, PowerUpRecords(registry));
        return Failure(item.error);
      }
      powerUps := powerUps + [item.value];
      i := i + 1;
    }
    return Success(powerUps);
  }

  /** The body of `ReadWinConditions`' loop. */
  method ReadGoal(reader: LevelInputReader, parseLambda: Lambda -> Option<Expr>) returns (r: Result<LevelReader.Goal, Fault>)
    modifies reader`position
    ensures Follows(GoalRecord(reader.src, old(reader.position), parseLambda), r, reader.position)
  {
    var line := reader.ReadText();
    if line.Failure? {
      return Failure(line.error);
    }
    var parsed := Parse(line.value, parseLambda);
    if parsed.None? || !IsPredicate(parsed.value) {
      return Failure(BadCondition(line.value));
    }
    var desc := reader.ReadLine();
    if desc.Failure? {
      return Failure(desc.error);
    }
    return Success(LevelReader.Goal(parsed.value, if desc.value.Some? then desc.value.value else ""));
  }

  /** `ReadWinConditions`: the goals, and the requirements text built line by line. */
  method ReadWinConditions(reader: LevelInputReader, parseLambda: Lambda -> Option<Expr>)
    returns (r: Result<(seq<LevelReader.Goal>, string), Fault>)
    modifies reader`position
    ensures Follows(WinConditionsSection(reader.src, old(reader.position), parseLambda), r, reader.position)
  {
    var count := reader.ReadInt();
    if count.Failure? {
      return Failure(count.error);
    }
    var n := count.value;
    if n < 0 {
      return Failure(NegativeCapacity);
    }
    var start := reader.position;
    var goals: seq<LevelReader.Goal> := [];
    var text := Levels.RequirementsHeader;
    var i := 0;
    while i < n
      invariant 0 <= i <= n
      invariant Section(reader.src, start, i, GoalRecords(parseLambda)) == Success(Read(goals, reader.position))
      invariant text == Levels.RequirementsHeader + Levels.GoalLines(goals)
    {
      var item := ReadGoal(reader, parseLambda);
      if item.Failure? {
        SectionFaultSticks(reader.src, start, i + 1, n, GoalRecords(parseLambda));
        return Failure(item.error);
      }
      GoalLinesStep(goals, item.value);
      goals := goals + [item.value];
      text := text + item.value.description + NewLine;
      i := i + 1;
    }
    return Success((goals, text));
  }

  lemma GoalLinesStep(goals: seq<LevelReader.Goal>, g: LevelReader.Goal)
    ensures Levels.RequirementsHeader + Levels.GoalLines(goals + [g])
         == Levels.RequirementsHeader + Levels.GoalLines(goals) + g.description + NewLine
  {
    assert (goals + [g])[..|goals|] == goals;
  }

  /** The reads of the older `ReadLevelInput`, in file order, through one reader. */
  method ReadLevelFile(reader: LevelInputReader, rt: Runtime) returns (r: Result<LevelData, Fault>)
    requires reader.position == 0 && !reader.listCapacity
    modifies reader`position
    ensures r == LevelFile(reader.src, rt)
  {
    var planets := reader.ReadPlanets();
    if planets.Failure? { return Failure(planets.error); }
    var suns := reader.ReadSuns();
    if suns.Failure? { return Failure(suns.error); }
    var powerUps := ReadPowerUps(reader, rt.registry);
    if powerUps.Failure? { return Failure(powerUps.error); }
    var physics := reader.ReadPhysicsEngine();
    if physics.Failure? { return Failure(physics.error); }
    var scale := reader.ReadGraphicsEngine();
    if scale.Failure? { return Failure(scale.error); }
    var time := reader.ReadTimeLimit();
    if time.Failure? { return Failure(time.error); }
    var conditions := ReadWinConditions(reader, rt.parseLambda);
    if conditions.Failure? { return Failure(conditions.error); }
    var next := reader.ReadNextLevelPath(rt.fileExists);
    if next.Failure? { return Failure(next.error); }
    var text := reader.ReadDescription();
    if text.Failure? { return Failure(text.error); }
    return Success(LevelData(planets.value, suns.value, powerUps.value, physics.value, scale.value,
                             time.value, conditions.value.0, next.value, conditions.value.1 + text.value));
  }

  /** Opens the file at `path` and reads it as the older `ReadLevelInput` does. */
  method ReadLevelInput(env: Environment, path: string) returns (r: Result<LevelData, Fault>)
    ensures r == LoadLevel(env, path)
  {
    var lines := env.files(path);
    if lines.None? {
      return Failure(MissingFile(path));
    }
    var reader := new LevelInputReader(Source(lines.value, env.parseInt, env.parseReal), false);
    r := ReadLevelFile(reader, RuntimeOf(env));
  }

  // ---------------------------------------------------------------- the registry

  /**
   * The older `PowerUpPluginLoader`: a dictionary from id to parser in which
   * the first registration of an id wins, holding the built-in parser.
   */
  class PowerUpPluginLoader {
    var parsers: map<string, Parser>

    function Parsers(): map<string, Parser>
      reads this
    {
      parsers
    }

    constructor ()
      ensures parsers == BuiltIn()
    {
      parsers := map[];
      new;
      Register(PowerUpId(ReduceTimeParser), ReduceTimeParser);
    }

    /** Adds `key` only if it is absent: an existing mapping is never replaced. */
    method Register(key: string, value: Parser)
      modifies this`parsers
      ensures parsers == Plugins.Registered(old(parsers), key, value)
    {
      if key !in parsers {
        parsers := parsers[key := value];
      }
    }
  }
}
