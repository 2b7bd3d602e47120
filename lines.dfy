/**
 * The level-file format read by `LevelInputReader` in both generations of the
 * game (Zapoctak.Net1/LevelInputReader.cs and ZapoctakProg2/LevelInputReader.cs,
 * whose copy is also embedded in ZapoctakProg2/Level.cs).
 *
 * A level file is the sequence of its lines. Every read goes through
 * `ReadLine`, which skips comment lines starting with '#'. Parsing numbers is
 * left to the .NET runtime, so the parsers are parameters of the `Source`.
 * Each read is first defined as a pure function from a position to the value
 * read and the next position; the `LevelInputReader` class then performs it
 * step by step on its own stream position and is proved to agree.
 *
 * An exception that the C# code would throw is a `Fault`; the level loader
 * catches none of them, so every fault ends the load.
 */
module LevelInput {
  import opened Wrappers
  import opened Strings
  import opened Bodies

  /** `Level.LevelPath`: the directory holding the level files. */
  const LevelPath: string := "..\\..\\level\\"

  /** What `StringBuilder.AppendLine` appends on Windows. */
  const NewLine: string := "\r\n"

  /**
   * The characters `string.Split()` without arguments splits on: those for
   * which `char.IsWhiteSpace` holds (U+0009 to U+000D, the Unicode space
   * separators, U+0085, U+2028 and U+2029).
   */
  const Whitespace: set<char> := {
    9 as char, 10 as char, 11 as char, 12 as char, 13 as char, ' ', 0x85 as char, 0xA0 as char, 0x1680 as char,
    0x2000 as char, 0x2001 as char, 0x2002 as char, 0x2003 as char, 0x2004 as char, 0x2005 as char,
    0x2006 as char, 0x2007 as char, 0x2008 as char, 0x2009 as char, 0x200A as char,
    0x2028 as char, 0x2029 as char, 0x202F as char, 0x205F as char, 0x3000 as char}

  datatype Fault =
    | UnexpectedEnd              // a line was needed, `ReadLine` gave null
    | EmptyLine                  // `line[0]` on an empty line
    | MissingField               // `fields[k]` past the end of a split line
    | BadNumber(text: string)    // int/double/float.Parse refused the text
    | NegativeCapacity           // `new List<T>(n)` with a negative count
    | UnknownPowerUp(id: string) // no parser registered under the id
    | BadCondition(text: string) // a win condition that does not parse, or is not a Func<Level, bool>
    | MissingFile(path: string)  // `new StreamReader(path)` on a file that is not there

  /** An open level file: its lines and the runtime's number parsers. */
  datatype Source = Source(lines: seq<string>,
                           parseInt: string -> Option<int>,
                           parseReal: string -> Option<real>)

  /** A value read, and the position of the first line not consumed. */
  datatype Read<T> = Read(value: T, next: nat)

  function Outcome<T>(r: Result<Read<T>, Fault>): Result<T, Fault> {
    match r
    case Success(read) => Success(read.value)
    case Failure(f) => Failure(f)
  }

  /**
   * A method returned `r` and left its stream at `position` exactly as the
   * read `spec` says. After a fault the position is left unspecified.
   */
  predicate Follows<T(==)>(spec: Result<Read<T>, Fault>, r: Result<T, Fault>, position: nat) {
    r == Outcome(spec) && (spec.Success? ==> position == spec.value.next)
  }

  predicate Comment(line: string) {
    |line| > 0 && line[0] == '#'
  }

  /**
   * `ReadLine`: the first line that is not a comment. At the end of the file it
   * gives null (`None`); when the file ends on a comment, the empty string. An
   * empty line faults, because the comment test indexes its first character.
   */
  function ReadLineFrom(lines: seq<string>, pos: nat): (r: Result<Read<Option<string>>, Fault>)
    ensures r.Success? && pos < |lines| ==> pos < r.value.next <= |lines|
    ensures r.Success? && pos >= |lines| ==> r.value == Read(None, pos)
    decreases |lines| - pos
  {
    if pos >= |lines| then Success(Read(None, pos))
    else if |lines[pos]| == 0 then Failure(EmptyLine)
    else if lines[pos][0] == '#' && pos + 1 < |lines| then ReadLineFrom(lines, pos + 1)
    else if lines[pos][0] == '#' then Success(Read(Some(""), pos + 1))
    else Success(Read(Some(lines[pos]), pos + 1))
  }

  predicate AllComments(lines: seq<string>, from: nat, to: nat)
    requires from <= to <= |lines|
  {
    forall k :: from <= k < to ==> Comment(lines[k])
  }

  /**
   * What `ReadLine` consumes: only comments before the line it returns; the
   * line returned is never a comment; null only at the end of the file; and a
   * fault only at an empty line reached through comments.
   */
  lemma {:induction false} ReadLineSkipsComments(lines: seq<string>, pos: nat)
    requires pos <= |lines|
    ensures var r := ReadLineFrom(lines, pos);
      r.Success? ==> pos <= r.value.next <= |lines| && (r.value.value.None? <==> pos == |lines|)
    ensures var r := ReadLineFrom(lines, pos);
      r.Success? && r.value.value.Some? ==> AllComments(lines, pos, r.value.next - 1)
    ensures var r := ReadLineFrom(lines, pos);
      r.Success? && r.value.value.Some? ==>
        var t := r.value.value.value;
        (t == lines[r.value.next - 1] && !Comment(t)) ||
        (t == "" && r.value.next == |lines| && Comment(lines[|lines| - 1]))
    ensures var r := ReadLineFrom(lines, pos);
      r.Failure? ==> exists k :: pos <= k < |lines| && lines[k] == "" && AllComments(lines, pos, k)
    decreases |lines| - pos
  {
    if pos < |lines| && |lines[pos]| > 0 && lines[pos][0] == '#' && pos + 1 < |lines| {
      ReadLineSkipsComments(lines, pos + 1);
      var r := ReadLineFrom(lines, pos);
      if r.Failure? {
        var k :| pos + 1 <= k < |lines| && lines[k] == "" && AllComments(lines, pos + 1, k);
        assert AllComments(lines, pos, k);
      }
    }
  }

  /** A `ReadLine` whose result is used as text: null would be dereferenced. */
  function TextLine(lines: seq<string>, pos: nat): (r: Result<Read<string>, Fault>)
    ensures r.Success? ==> pos < r.value.next
  {
    var line :- ReadLineFrom(lines, pos);
    if line.value.None? then Failure(UnexpectedEnd) else Success(Read(line.value.value, line.next))
  }

  function Number<T>(parse: string -> Option<T>, text: string): Result<T, Fault> {
    match parse(text)
    case Some(v) => Success(v)
    case None => Failure(BadNumber(text))
  }

  /** `int.Parse(ReadLine())`. */
  function IntLine(src: Source, pos: nat): (r: Result<Read<int>, Fault>)
    ensures r.Success? ==> pos < r.value.next
  {
    var line :- TextLine(src.lines, pos);
    var v :- Number(src.parseInt, line.value);
    Success(Read(v, line.next))
  }

  /** `double.Parse(ReadLine())` (also `float.Parse`; the rounding to float is not modelled). */
  function RealLine(src: Source, pos: nat): (r: Result<Read<real>, Fault>)
    ensures r.Success? ==> pos < r.value.next
  {
    var line :- TextLine(src.lines, pos);
    var v :- Number(src.parseReal, line.value);
    Success(Read(v, line.next))
  }

  /** `double.Parse(fields[k])`. */
  function Field(fields: seq<string>, k: nat, parseReal: string -> Option<real>): Result<real, Fault> {
    if k < |fields| then Number(parseReal, fields[k]) else Failure(MissingField)
  }

  /** The fields of one sun line: `xPos yPos xVel yVel radius temperature mass`. */
  function SunFromText(text: string, parseReal: string -> Option<real>): Result<Sun, Fault> {
    var s := SplitChars(text, Whitespace);
    var x :- Field(s, 0, parseReal);
    var y :- Field(s, 1, parseReal);
    var vx :- Field(s, 2, parseReal);
    var vy :- Field(s, 3, parseReal);
    var radius :- Field(s, 4, parseReal);
    var temperature :- Field(s, 5, parseReal);
    var mass :- Field(s, 6, parseReal);
    Success(Sun(Body(x, y, vx, vy, radius, false, false), temperature, mass))
  }

  /** The fields of one planet line: `xPos yPos xVel yVel radius type`, the type an integer code. */
  function PlanetFromText(text: string, src: Source): Result<Planet, Fault> {
    var p := SplitChars(text, Whitespace);
    var x :- Field(p, 0, src.parseReal);
    var y :- Field(p, 1, src.parseReal);
    var vx :- Field(p, 2, src.parseReal);
    var vy :- Field(p, 3, src.parseReal);
    var radius :- Field(p, 4, src.parseReal);
    var kind :- if 5 < |p| then Number(src.parseInt, p[5]) else Failure(MissingField);
    Success(Planet(Body(x, y, vx, vy, radius, false, false), kind))
  }

  /** `ReadCoordinates`: one line split on single spaces, `xPos yPos xVel yVel radius`. */
  function CoordinatesFromText(text: string, parseReal: string -> Option<real>): Result<Coordinates, Fault> {
    var c := SplitChars(text, {' '});
    var x :- Field(c, 0, parseReal);
    var y :- Field(c, 1, parseReal);
    var vx :- Field(c, 2, parseReal);
    var vy :- Field(c, 3, parseReal);
    var radius :- Field(c, 4, parseReal);
    Success(Coordinates(x, y, vx, vy, radius))
  }

  function SunLine(src: Source, pos: nat): (r: Result<Read<Sun>, Fault>)
    ensures r.Success? ==> pos < r.value.next
  {
    var line :- TextLine(src.lines, pos);
    var sun :- SunFromText(line.value, src.parseReal);
    Success(Read(sun, line.next))
  }

  function PlanetLine(src: Source, pos: nat): (r: Result<Read<Planet>, Fault>)
    ensures r.Success? ==> pos < r.value.next
  {
    var line :- TextLine(src.lines, pos);
    var planet :- PlanetFromText(line.value, src);
    Success(Read(planet, line.next))
  }

  function CoordinatesLine(src: Source, pos: nat): (r: Result<Read<Coordinates>, Fault>)
    ensures r.Success? ==> pos < r.value.next
  {
    var line :- TextLine(src.lines, pos);
    var c :- CoordinatesFromText(line.value, src.parseReal);
    Success(Read(c, line.next))
  }

  /** Five numbers written on one line with single spaces. */
  function CoordinatesText(c: Coordinates, show: real -> string): string {
    show(c.xPos) + " " + show(c.yPos) + " " + show(c.xVel) + " " + show(c.yVel) + " " + show(c.radius)
  }

  /** A printer whose output is read back by `parse` and fits in one field. */
  ghost predicate Printable(show: real -> string, parse: string -> Option<real>, seps: set<char>) {
    forall x :: parse(show(x)) == Some(x) && FreeOf(show(x), seps)
  }

  /** Splitting `a + c + b` at the character `c` when `a` holds no separator. */
  lemma {:induction false} SplitCharsAt(a: string, c: char, b: string, seps: set<char>)
    requires c in seps && FreeOf(a, seps)
    ensures SplitChars(a + [c] + b, seps) == [a] + SplitChars(b, seps)
    decreases |a|
  {
    if |a| == 0 {
      assert a + [c] + b == [c] + b;
      assert ([c] + b)[1..] == b;
    } else {
      SplitCharsAt(a[1..], c, b, seps);
      assert (a + [c] + b)[1..] == a[1..] + [c] + b;
      assert [a[0]] + a[1..] == a;
    }
  }

  /** A field with no separator splits into itself. */
  lemma {:induction false} SplitCharsWhole(a: string, seps: set<char>)
    requires FreeOf(a, seps)
    ensures SplitChars(a, seps) == [a]
    decreases |a|
  {
    if |a| > 0 {
      SplitCharsWhole(a[1..], seps);
      assert [a[0]] + a[1..] == a;
    }
  }

  /**
   * `ReadCoordinates` reads back what `CoordinatesText` writes, for any printer
   * the runtime parses back and that prints no space.
   */
  lemma CoordinatesRoundTrip(c: Coordinates, show: real -> string, parseReal: string -> Option<real>)
    requires Printable(show, parseReal, {' '})
    ensures CoordinatesFromText(CoordinatesText(c, show), parseReal) == Success(c)
  {
    var sp := {' '};
    var f0, f1, f2, f3, f4 := show(c.xPos), show(c.yPos), show(c.xVel), show(c.yVel), show(c.radius);
    assert FreeOf(f0, sp) && FreeOf(f1, sp) && FreeOf(f2, sp) && FreeOf(f3, sp) && FreeOf(f4, sp);
    var t := CoordinatesText(c, show);
    assert t == f0 + [' '] + (f1 + [' '] + (f2 + [' '] + (f3 + [' '] + f4)));
    SplitCharsWhole(f4, sp);
    SplitCharsAt(f3, ' ', f4, sp);
    SplitCharsAt(f2, ' ', f3 + [' '] + f4, sp);
    SplitCharsAt(f1, ' ', f2 + [' '] + (f3 + [' '] + f4), sp);
    SplitCharsAt(f0, ' ', f1 + [' '] + (f2 + [' '] + (f3 + [' '] + f4)), sp);
    assert SplitChars(t, sp) == [f0, f1, f2, f3, f4];
  }

  /**
   * `n` records read one after another from `pos` (the body of a
   * `for (i = 0; i < n; i++)` loop over `ReadLine`).
   */
  function Section<T>(src: Source, pos: nat, n: nat, record: (Source, nat) -> Result<Read<T>, Fault>)
    : (r: Result<Read<seq<T>>, Fault>)
    decreases n
  {
    if n == 0 then Success(Read([], pos))
    else
      var prev :- Section(src, pos, n - 1, record);
      var item :- record(src, prev.next);
      Success(Read(prev.value + [item.value], item.next))
  }

  /** A section that reads `n` records yields exactly `n` values. */
  lemma {:induction false} SectionLength<T>(src: Source, pos: nat, n: nat, record: (Source, nat) -> Result<Read<T>, Fault>)
    ensures Section(src, pos, n, record).Success? ==> |Section(src, pos, n, record).value.value| == n
  {
    if n > 0 {
      SectionLength(src, pos, n - 1, record);
    }
  }

  /** Once a record faults, the whole section faults with it. */
  lemma {:induction false} SectionFaultSticks<T>(src: Source, pos: nat, i: nat, n: nat,
                                                record: (Source, nat) -> Result<Read<T>, Fault>)
    requires i <= n && Section(src, pos, i, record).Failure?
    ensures Section(src, pos, n, record) == Section(src, pos, i, record)
    decreases n - i
  {
    if i < n {
      SectionFaultSticks(src, pos, i, n - 1, record);
    }
  }

  /**
   * A count line, then that many records. `listCapacity` says whether the count
   * is also passed to `new List<T>(count)`, which throws for a negative count;
   * otherwise a negative count reads no record.
   */
  function CountedSection<T>(src: Source, pos: nat, listCapacity: bool,
                             record: (Source, nat) -> Result<Read<T>, Fault>): (r: Result<Read<seq<T>>, Fault>)
  {
    var count :- IntLine(src, pos);
    if count.value < 0 && listCapacity then Failure(NegativeCapacity)
    else if count.value < 0 then Success(Read([], count.next))
    else Section(src, count.next, count.value, record)
  }

  /** How many records a counted section holds, and when the count itself faults. */
  lemma CountedSectionMeaning<T>(src: Source, pos: nat, listCapacity: bool,
                                 record: (Source, nat) -> Result<Read<T>, Fault>)
    requires IntLine(src, pos).Success?
    ensures var n := IntLine(src, pos).value.value;
      var r := CountedSection(src, pos, listCapacity, record);
      (n < 0 && listCapacity ==> r == Failure(NegativeCapacity)) &&
      (n < 0 && !listCapacity ==> r.Success? && r.value.value == []) &&
      (n >= 0 && r.Success? ==> |r.value.value| == n)
  {
    var n := IntLine(src, pos).value.value;
    if n >= 0 {
      SectionLength(src, IntLine(src, pos).value.next, n, record);
    }
  }

  /**
   * `ReadNextLevelPath`: the name on the next line, under `LevelPath`; null
   * when the name reads "null" in any letter case or no such file exists.
   * At the end of the file the name is null and the path is `LevelPath` itself.
   */
  function NextLevelPathLine(src: Source, pos: nat, fileExists: string -> bool): Result<Read<Option<string>>, Fault> {
    var name :- ReadLineFrom(src.lines, pos);
    var path := LevelPath + (if name.value.Some? then name.value.value else "");
    if (name.value.Some? && ToLower(name.value.value) == "null") || !fileExists(path) then
      Success(Read(None, name.next))
    else
      Success(Read(Some(path), name.next))
  }

  /**
   * A next level is found exactly when a name is given that is not "null" and
   * names an existing file, and its path is that file's (the level directory
   * itself is not a file).
   */
  lemma NextLevelPathMeaning(src: Source, pos: nat, fileExists: string -> bool)
    requires !fileExists(LevelPath)
    requires ReadLineFrom(src.lines, pos).Success?
    ensures var name := ReadLineFrom(src.lines, pos).value.value;
      var r := NextLevelPathLine(src, pos, fileExists);
      r.Success? &&
      (r.value.value.Some? <==>
        name.Some? && ToLower(name.value) != "null" && fileExists(LevelPath + name.value)) &&
      (r.value.value.Some? ==> r.value.value.value == LevelPath + name.value)
  {
    if ReadLineFrom(src.lines, pos).value.value.None? {
      assert LevelPath + "" == LevelPath;
    }
  }

  /** `ReadDescription`: every remaining line read through `ReadLine`, each followed by a line break. */
  function DescriptionFrom(lines: seq<string>, pos: nat): (r: Result<Read<string>, Fault>)
    decreases |lines| - pos
  {
    if pos >= |lines| then Success(Read("", pos))
    else
      var line :- ReadLineFrom(lines, pos);
      var rest :- DescriptionFrom(lines, line.next);
      Success(Read((if line.value.Some? then line.value.value + NewLine else "") + rest.value, rest.next))
  }

  /** `text` put in front of whatever a read yields. */
  function Prepend(text: string, r: Result<Read<string>, Fault>): Result<Read<string>, Fault> {
    match r
    case Success(read) => Success(Read(text + read.value, read.next))
    case Failure(f) => Failure(f)
  }

  /** Lines with no comment and no blank line, each followed by a line break. */
  function Paragraph(lines: seq<string>): string {
    if |lines| == 0 then "" else lines[0] + NewLine + Paragraph(lines[1..])
  }

  /** Without comments or blank lines the description is the rest of the file, line by line. */
  lemma {:induction false} DescriptionOfPlainLines(lines: seq<string>, pos: nat)
    requires pos <= |lines|
    requires forall k :: pos <= k < |lines| ==> |lines[k]| > 0 && !Comment(lines[k])
    ensures DescriptionFrom(lines, pos) == Success(Read(Paragraph(lines[pos..]), |lines|))
    decreases |lines| - pos
  {
    if pos < |lines| {
      DescriptionOfPlainLines(lines, pos + 1);
      assert lines[pos..][1..] == lines[pos + 1..];
    }
  }

  /** `ReadPhysicsEngine`'s four lines, in file order. */
  datatype PhysicsSettings = PhysicsSettings(gravityConst: int, maxDistance: real, minGravity: int, maxGravity: int)

  function PhysicsLines(src: Source, pos: nat): (r: Result<Read<PhysicsSettings>, Fault>)
    ensures r.Success? ==> pos + 4 <= r.value.next
  {
    var g :- IntLine(src, pos);
    var d :- RealLine(src, g.next);
    var lo :- IntLine(src, d.next);
    var hi :- IntLine(src, lo.next);
    Success(Read(PhysicsSettings(g.value, d.value, lo.value, hi.value), hi.next))
  }

  /**
   * The reader over one open level file. `listCapacity` is true in the newer
   * generation, whose `ReadSuns` and `ReadPlanets` pass the count to the list
   * constructor.
   */
  class LevelInputReader {
    const src: Source
    const listCapacity: bool
    var position: nat

    constructor (src: Source, listCapacity: bool)
      ensures this.src == src && this.listCapacity == listCapacity && position == 0
    {
      this.src := src;
      this.listCapacity := listCapacity;
      position := 0;
    }

    /** `ReadLine`: a do-while loop over the stream that stops at the first line not a comment. */
    method ReadLine() returns (r: Result<Option<string>, Fault>)
      modifies this`position
      ensures Follows(ReadLineFrom(src.lines, old(position)), r, position)
    {
      if position >= |src.lines| {
        return Success(None);
      }
      var line := src.lines[position];
      position := position + 1;
      while |line| > 0 && line[0] == '#' && position < |src.lines|
        invariant old(position) < position <= |src.lines|
        invariant line == src.lines[position - 1]
        invariant ReadLineFrom(src.lines, old(position)) == ReadLineFrom(src.lines, position - 1)
        decreases |src.lines| - position
      {
        line := src.lines[position];
        position := position + 1;
      }
      if |line| == 0 {
        return Failure(EmptyLine);
      }
      if line[0] == '#' {
        return Success(Some(""));
      }
      return Success(Some(line));
    }

    method ReadText() returns (r: Result<string, Fault>)
      modifies this`position
      ensures Follows(TextLine(src.lines, old(position)), r, position)
    {
      var line := ReadLine();
      if line.Failure? {
        return Failure(line.error);
      }
      if line.value.None? {
        return Failure(UnexpectedEnd);
      }
      return Success(line.value.value);
    }

    method ReadInt() returns (r: Result<int, Fault>)
      modifies this`position
      ensures Follows(IntLine(src, old(position)), r, position)
    {
      var line := ReadText();
      if line.Failure? {
        return Failure(line.error);
      }
      r := Number(src.parseInt, line.value);
    }

    method ReadReal() returns (r: Result<real, Fault>)
      modifies this`position
      ensures Follows(RealLine(src, old(position)), r, position)
    {
      var line := ReadText();
      if line.Failure? {
        return Failure(line.error);
      }
      r := Number(src.parseReal, line.value);
    }

    method ReadCoordinates() returns (r: Result<Coordinates, Fault>)
      modifies this`position
      ensures Follows(CoordinatesLine(src, old(position)), r, position)
    {
      var line := ReadText();
      if line.Failure? {
        return Failure(line.error);
      }
      r := CoordinatesFromText(line.value, src.parseReal);
    }

    method ReadSuns() returns (r: Result<seq<Sun>, Fault>)
      modifies this`position
      ensures Follows(CountedSection(src, old(position), listCapacity, SunLine), r, position)
    {
      var count := ReadInt();
      if count.Failure? {
        return Failure(count.error);
      }
      var n := count.value;
      if n < 0 {
        return if listCapacity then Failure(NegativeCapacity) else Success([]);
      }
      var start := position;
      var suns: seq<Sun> := [];
      var i := 0;
      while i < n
        invariant 0 <= i <= n
        invariant Section(src, start, i, SunLine) == Success(Read(suns, position))
      {
        var line := ReadText();
        var sun := if line.Failure? then Failure(line.error) else SunFromText(line.value, src.parseReal);
        if sun.Failure? {
          SectionFaultSticks(src, start, i + 1, n, SunLine);
          return Failure(sun.error);
        }
        suns := suns + [sun.value];
        i := i + 1;
      }
      return Success(suns);
    }

    method ReadPlanets() returns (r: Result<seq<Planet>, Fault>)
      modifies this`position
      ensures Follows(CountedSection(src, old(position), listCapacity, PlanetLine), r, position)
    {
      var count := ReadInt();
      if count.Failure? {
        return Failure(count.error);
      }
      var n := count.value;
      if n < 0 {
        return if listCapacity then Failure(NegativeCapacity) else Success([]);
      }
      var start := position;
      var planets: seq<Planet> := [];
      var i := 0;
      while i < n
        invariant 0 <= i <= n
        invariant Section(src, start, i, PlanetLine) == Success(Read(planets, position))
      {
        var line := ReadText();
        var planet := if line.Failure? then Failure(line.error) else PlanetFromText(line.value, src);
        if planet.Failure? {
          SectionFaultSticks(src, start, i + 1, n, PlanetLine);
          return Failure(planet.error);
        }
        planets := planets + [planet.value];
        i := i + 1;
      }
      return Success(planets);
    }

    method ReadNextLevelPath(fileExists: string -> bool) returns (r: Result<Option<string>, Fault>)
      modifies this`position
      ensures Follows(NextLevelPathLine(src, old(position), fileExists), r, position)
    {
      var name := ReadLine();
      if name.Failure? {
        return Failure(name.error);
      }
      var path := LevelPath + (if name.value.Some? then name.value.value else "");
      if (name.value.Some? && ToLower(name.value.value) == "null") || !fileExists(path) {
        return Success(None);
      }
      return Success(Some(path));
    }

    /** `ReadGraphicsEngine`: only the scale factor; drawing is not modelled. */
    method ReadGraphicsEngine() returns (r: Result<real, Fault>)
      modifies this`position
      ensures Follows(RealLine(src, old(position)), r, position)
    {
      r := ReadReal();
    }

    method ReadPhysicsEngine() returns (r: Result<PhysicsSettings, Fault>)
      modifies this`position
      ensures Follows(PhysicsLines(src, old(position)), r, position)
    {
      var g := ReadInt();
      if g.Failure? {
        return Failure(g.error);
      }
      var d := ReadReal();
      if d.Failure? {
        return Failure(d.error);
      }
      var lo := ReadInt();
      if lo.Failure? {
        return Failure(lo.error);
      }
      var hi := ReadInt();
      if hi.Failure? {
        return Failure(hi.error);
      }
      return Success(PhysicsSettings(g.value, d.value, lo.value, hi.value));
    }

    method ReadTimeLimit() returns (r: Result<int, Fault>)
      modifies this`position
      ensures Follows(IntLine(src, old(position)), r, position)
    {
      r := ReadInt();
    }

    /** `ReadDescription`: appends line after line until the end of the stream. */
    method ReadDescription() returns (r: Result<string, Fault>)
      modifies this`position
      ensures Follows(DescriptionFrom(src.lines, old(position)), r, position)
    {
      var text := "";
      PrependNothing(DescriptionFrom(src.lines, position));
      while position < |src.lines|
        invariant DescriptionFrom(src.lines, old(position)) == Prepend(text, DescriptionFrom(src.lines, position))
        decreases |src.lines| - position
      {
        ghost var before := position;
        var line := ReadLine();
        if line.Failure? {
          return Failure(line.error);
        }
        var piece := if line.value.Some? then line.value.value + NewLine else "";
        assert DescriptionFrom(src.lines, before) == Prepend(piece, DescriptionFrom(src.lines, position));
        assert text + piece + "" == text + piece;
        PrependTwice(text, piece, DescriptionFrom(src.lines, position));
        text := text + piece;
      }
      assert DescriptionFrom(src.lines, position) == Success(Read("", position));
      assert text + "" == text;
      return Success(text);
    }
  }

  lemma PrependNothing(r: Result<Read<string>, Fault>)
    ensures Prepend("", r) == r
  {
    if r.Success? {
      assert "" + r.value.value == r.value.value;
    }
  }

  lemma PrependTwice(a: string, b: string, r: Result<Read<string>, Fault>)
    ensures Prepend(a, Prepend(b, r)) == Prepend(a + b, r)
  {
    if r.Success? {
      assert a + (b + r.value.value) == (a + b) + r.value.value;
    }
  }
}
