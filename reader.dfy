/**
 * The parts of the newer game's level file that depend on its power-ups and
 * win conditions (Zapoctak.Net1/LevelInputReader.cs `ReadPowerUps` and
 * `ReadWinConditions`, and the three `IPowerUpParser` implementations), and
 * the whole file as `Level.ReadLevelInput` reads it.
 */
module LevelReader {
  import opened Wrappers
  import opened Strings
  import opened Bodies
  import opened LevelInput
  import opened PowerUps
  import opened WinConditions

  /** The parser that reads a power-up of this kind. */
  function ParserFor(e: Effect): Parser {
    match e
    case ReduceTime(_) => ReduceTimeParser
    case ExtendSafeZone(_) => ExtendSafeZoneParser
    case TemporaryDestroy(_) => TemporaryDestroyParser
  }

  /**
   * `IPowerUpParser.Parse` of the three parsers: a coordinates line, then one
   * number line (an int for ReduceTime and TempDestroy, a float for
   * ExtendSafeZone).
   */
  function ParsePowerUp(src: Source, pos: nat, p: Parser): (r: Result<Read<PowerUp>, Fault>)
    ensures r.Success? ==> CoordinatesLine(src, pos).Success?
    ensures r.Success? ==> r.value.value.body == FromCoordinates(CoordinatesLine(src, pos).value.value)
    ensures r.Success? ==> ParserFor(r.value.value.effect) == p
    ensures r.Success? ==> pos + 2 <= r.value.next
  {
    var c :- CoordinatesLine(src, pos);
    match p
    case ReduceTimeParser =>
      var amount :- IntLine(src, c.next);
      Success(Read(PowerUp(FromCoordinates(c.value), ReduceTime(amount.value)), amount.next))
    case ExtendSafeZoneParser =>
      var factor :- RealLine(src, c.next);
      Success(Read(PowerUp(FromCoordinates(c.value), ExtendSafeZone(factor.value)), factor.next))
    case TemporaryDestroyParser =>
      var time :- IntLine(src, c.next);
      Success(Read(PowerUp(FromCoordinates(c.value), TemporaryDestroy(time.value)), time.next))
  }

  /**
   * One power-up record: its id line, looked up in the registry, then what
   * that parser reads. A null id throws in the dictionary lookup; an id with
   * no parser is a format error.
   */
  function PowerUpRecord(src: Source, pos: nat, registry: map<string, Parser>): Result<Read<PowerUp>, Fault> {
    var id :- ReadLineFrom(src.lines, pos);
    if id.value.None? then Failure(UnexpectedEnd)
    else if id.value.value !in registry then Failure(UnknownPowerUp(id.value.value))
    else ParsePowerUp(src, id.next, registry[id.value.value])
  }

  function PowerUpRecords(registry: map<string, Parser>): (Source, nat) -> Result<Read<PowerUp>, Fault> {
    (s: Source, p: nat) => PowerUpRecord(s, p, registry)
  }

  /** `ReadPowerUps`: a count, then that many records; the list gets no capacity. */
  function PowerUpSection(src: Source, pos: nat, registry: map<string, Parser>): Result<Read<seq<PowerUp>>, Fault> {
    CountedSection(src, pos, false, PowerUpRecords(registry))
  }

  /** A registry in which every parser is filed under its own id, as `LoadPlugins` files them. */
  predicate Consistent(registry: map<string, Parser>) {
    forall id :: id in registry ==> PowerUpId(registry[id]) == id
  }

  /**
   * A power-up record is read only under a registered id, and with a
   * consistent registry the kind of power-up read is the one that id names.
   */
  lemma PowerUpRecordMeaning(src: Source, pos: nat, registry: map<string, Parser>)
    requires Consistent(registry)
    ensures var r := PowerUpRecord(src, pos, registry);
      r.Success? ==>
        var id := ReadLineFrom(src.lines, pos).value;
        id.value.Some? && id.value.value in registry &&
        PowerUpId(ParserFor(r.value.value.effect)) == id.value.value
  {
  }

  /** An id that is not registered stops the load, whatever follows it. */
  lemma UnknownIdFaults(src: Source, pos: nat, registry: map<string, Parser>)
    requires ReadLineFrom(src.lines, pos).Success?
    requires ReadLineFrom(src.lines, pos).value.value.Some?
    requires ReadLineFrom(src.lines, pos).value.value.value !in registry
    ensures PowerUpRecord(src, pos, registry) ==
      Failure(UnknownPowerUp(ReadLineFrom(src.lines, pos).value.value.value))
  {
  }

  /** A win condition and the goal text shown for it. */
  datatype Goal = Goal(condition: Condition, description: string)

  /**
   * One win condition: the lambda line, then its description line, lower-cased;
   * the description "auto" is replaced by one generated from the condition.
   */
  function GoalRecord(src: Source, pos: nat, parseLambda: Lambda -> Option<Expr>): Result<Read<Goal>, Fault> {
    var line :- TextLine(src.lines, pos);
    var cond :- match Parse(line.value, parseLambda)
                case Some(c) => Success(c)
                case None => Failure(BadCondition(line.value));
    var _ :- if IsPredicate(cond) then Success(()) else Failure(BadCondition(line.value));
    var desc :- TextLine(src.lines, line.next);
    var d := ToLower(desc.value);
    Success(Read(Goal(cond, if d == "auto" then GenerateDescription(cond) else d), desc.next))
  }

  function GoalRecords(parseLambda: Lambda -> Option<Expr>): (Source, nat) -> Result<Read<Goal>, Fault> {
    (s: Source, p: nat) => GoalRecord(s, p, parseLambda)
  }

  /** `ReadWinConditions`: a count, passed as the capacity of the list and the length of the array. */
  function GoalSection(src: Source, pos: nat, parseLambda: Lambda -> Option<Expr>): Result<Read<seq<Goal>>, Fault> {
    CountedSection(src, pos, true, GoalRecords(parseLambda))
  }

  /**
   * The description of a goal: generated when the file says "auto" in any
   * letter case, otherwise the file's text in lower case. Its condition is a
   * boolean lambda: one whose body is not boolean fails the cast to
   * `Func<Level, bool>` and ends the read.
   */
  lemma GoalDescription(src: Source, pos: nat, parseLambda: Lambda -> Option<Expr>)
    ensures var r := GoalRecord(src, pos, parseLambda);
      r.Success? ==>
        var line := TextLine(src.lines, pos).value;
        var desc := TextLine(src.lines, line.next).value.value;
        Parse(line.value, parseLambda) == Some(r.value.value.condition) &&
        IsPredicate(r.value.value.condition) &&
        (ToLower(desc) == "auto" ==> r.value.value.description == GenerateDescription(r.value.value.condition)) &&
        (ToLower(desc) != "auto" ==> r.value.value.description == ToLower(desc) &&
                                     ToLower(r.value.value.description) == r.value.value.description)
    ensures var line := TextLine(src.lines, pos);
      line.Success? && Parse(line.value.value, parseLambda).Some? && !IsPredicate(Parse(line.value.value, parseLambda).value) ==>
        GoalRecord(src, pos, parseLambda) == Failure(BadCondition(line.value.value))
  {
    var r := GoalRecord(src, pos, parseLambda);
    if r.Success? {
      ToLowerIdempotent(TextLine(src.lines, TextLine(src.lines, pos).value.next).value.value);
    }
  }

  /** Everything `Level.ReadLevelInput` takes from a level file, in file order. */
  datatype LevelData = LevelData(planets: seq<Planet>, suns: seq<Sun>, powerUps: seq<PowerUp>,
                                 physics: PhysicsSettings, scaleFactor: real, timeLimit: int,
                                 goals: seq<Goal>, nextLevelPath: Option<string>, description: string)

  /** What the level needs besides the file: the plugin registry and the runtime's services. */
  datatype Runtime = Runtime(registry: map<string, Parser>,
                             parseLambda: Lambda -> Option<Expr>,
                             fileExists: string -> bool)

  /** A whole level file: planets, suns, power-ups, physics, graphics, time limit, goals, next level, text. */
  function LevelFile(src: Source, rt: Runtime): Result<LevelData, Fault> {
    var planets :- CountedSection(src, 0, true, PlanetLine);
    var suns :- CountedSection(src, planets.next, true, SunLine);
    var powerUps :- PowerUpSection(src, suns.next, rt.registry);
    var physics :- PhysicsLines(src, powerUps.next);
    var scale :- RealLine(src, physics.next);
    var time :- IntLine(src, scale.next);
    var goals :- GoalSection(src, time.next, rt.parseLambda);
    var next :- NextLevelPathLine(src, goals.next, rt.fileExists);
    var text :- DescriptionFrom(src.lines, next.next);
    Success(LevelData(planets.value, suns.value, powerUps.value, physics.value, scale.value,
                      time.value, goals.value, next.value, text.value))
  }

  /** `IPowerUpParser.Parse`, reading through the reader. */
  method ParseWith(reader: LevelInputReader, p: Parser) returns (r: Result<PowerUp, Fault>)
    modifies reader`position
    ensures Follows(ParsePowerUp(reader.src, old(reader.position), p), r, reader.position)
  {
    var c := reader.ReadCoordinates();
    if c.Failure? {
      return Failure(c.error);
    }
    match p
    case ReduceTimeParser =>
      var amount := reader.ReadInt();
      if amount.Failure? {
        return Failure(amount.error);
      }
      return Success(PowerUp(FromCoordinates(c.value), ReduceTime(amount.value)));
    case ExtendSafeZoneParser =>
      var factor := reader.ReadReal();
      if factor.Failure? {
        return Failure(factor.error);
      }
      return Success(PowerUp(FromCoordinates(c.value), ExtendSafeZone(factor.value)));
    case TemporaryDestroyParser =>
      var time := reader.ReadInt();
      if time.Failure? {
        return Failure(time.error);
      }
      return Success(PowerUp(FromCoordinates(c.value), TemporaryDestroy(time.value)));
  }

  /** `LevelInputReader.ReadPowerUps` with the registry `PowerUpPluginLoader.Instance.Parsers`. */
  method ReadPowerUps(reader: LevelInputReader, registry: map<string, Parser>) returns (r: Result<seq<PowerUp>, Fault>)
    modifies reader`position
    ensures Follows(PowerUpSection(reader.src, old(reader.position), registry), r, reader.position)
  {
    var count := reader.ReadInt();
    if count.Failure? {
      return Failure(count.error);
    }
    var n := count.value;
    if n < 0 {
      return Success([]);
    }
    var start := reader.position;
    var powerUps: seq<PowerUp> := [];
    var i := 0;
    while i < n
      invariant 0 <= i <= n
      invariant Section(reader.src, start, i, PowerUpRecords(registry)) == Success(Read(powerUps, reader.position))
    {
      var item := ReadPowerUp(reader, registry);
      if item.Failure? {
        SectionFaultSticks(reader.src, start, i + 1, n, PowerUpRecords(registry));
        return Failure(item.error);
      }
      powerUps := powerUps + [item.value];
      i := i + 1;
    }
    return Success(powerUps);
  }

  /** The body of `ReadPowerUps`' loop. */
  method ReadPowerUp(reader: LevelInputReader, registry: map<string, Parser>) returns (r: Result<PowerUp, Fault>)
    modifies reader`position
    ensures Follows(PowerUpRecord(reader.src, old(reader.position), registry), r, reader.position)
  {
    var id := reader.ReadLine();
    if id.Failure? {
      return Failure(id.error);
    }
    if id.value.None? {
      return Failure(UnexpectedEnd);
    }
    if id.value.value !in registry {
      return Failure(UnknownPowerUp(id.value.value));
    }
    r := ParseWith(reader, registry[id.value.value]);
  }

  /** `LevelInputReader.ReadWinConditions`, with `Compile` folded into the parse. */
  method ReadWinConditions(reader: LevelInputReader, parseLambda: Lambda -> Option<Expr>) returns (r: Result<seq<Goal>, Fault>)
    modifies reader`position
    ensures Follows(GoalSection(reader.src, old(reader.position), parseLambda), r, reader.position)
  {
    var count := reader.ReadInt();
    if count.Failure? {
      return Failure(count.error);
    }
    var n := count.value;
    if n < 0 {
      return Failure(NegativeCapacity);
    }
    var start := reader.position;
    var goals: seq<Goal> := [];
    var i := 0;
    while i < n
      invariant 0 <= i <= n
      invariant Section(reader.src, start, i, GoalRecords(parseLambda)) == Success(Read(goals, reader.position))
    {
      var item := ReadGoal(reader, parseLambda);
      if item.Failure? {
        SectionFaultSticks(reader.src, start, i + 1, n, GoalRecords(parseLambda));
        return Failure(item.error);
      }
      goals := goals + [item.value];
      i := i + 1;
    }
    return Success(goals);
  }

  /** The body of `ReadWinConditions`' loop. */
  method ReadGoal(reader: LevelInputReader, parseLambda: Lambda -> Option<Expr>) returns (r: Result<Goal, Fault>)
    modifies reader`position
    ensures Follows(GoalRecord(reader.src, old(reader.position), parseLambda), r, reader.position)
  {
    var line := reader.ReadText();
    if line.Failure? {
      return Failure(line.error);
    }
    var parsed := Parse(line.value, parseLambda);
    if parsed.None? || !IsPredicate(parsed.value) {
      return Failure(BadCondition(line.value));
    }
    var desc := reader.ReadText();
    if desc.Failure? {
      return Failure(desc.error);
    }
    var d := ToLower(desc.value);
    if d == "auto" {
      return Success(Goal(parsed.value, GenerateDescription(parsed.value)));
    }
    return Success(Goal(parsed.value, d));
  }
}
