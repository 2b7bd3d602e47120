/**
 * The lose conditions of the older game (ZapoctakProg2/Class1.cs). Each one
 * holds a number and a reference to a count array indexed by planet type;
 * `Check` throws `RequirementsNotMetException` when the counts break it, and
 * `ToString` names the requirement. Nothing in the older game builds one:
 * its levels are judged by the win conditions of the level file.
 */
module LoseConditions {
  import opened Wrappers
  import opened Strings
  import opened Bodies
  import Levels
  import Int32

  datatype Kind = TooManyBadPlanets | TooFewTotalPlanets | TooFewGoodPlanets

  /** What `Check` does: return, throw the requirement's exception with its message, or index past the array. */
  datatype Outcome = Met | NotMet(message: string) | IndexFault

  /**
   * The sum of the counts as the `foreach` adds them up from the front: each
   * `planetCount += i` is a 32-bit `int` sum, wrapped.
   */
  function Sum(counts: seq<int>): (r: int)
    ensures Int32.InRange(r)
    decreases |counts|
  {
    if |counts| == 0 then 0 else Int32.Wrap(Sum(counts[..|counts| - 1]) + counts[|counts| - 1])
  }

  /** Counts of three sizes whose exact total lies in the `int` range add up without wrapping. */
  lemma SumOfThree(a: nat, b: nat, c: nat)
    requires a + b + c <= Int32.MaxValue
    ensures Sum([a, b, c]) == a + b + c
  {
    assert [a][..0] == [];
    assert Sum([a]) == Int32.Wrap(0 + a) == a;
    assert [a, b][..1] == [a];
    assert Sum([a, b]) == Int32.Wrap(a + b) == a + b;
    assert [a, b, c][..2] == [a, b];
    assert Sum([a, b, c]) == Int32.Wrap(a + b + c) == a + b + c;
  }

  /**
   * A count array whose total does not fit in an `int` wraps: `int.MaxValue`
   * Good planets and one Neutral one sum to `int.MinValue`, so "too few total
   * planets" is reported against a minimum of 1.
   */
  lemma SumWraps()
    ensures Sum([Int32.MaxValue, 1, 0]) == Int32.MinValue
    ensures Evaluate(TooFewTotalPlanets, 1, [Int32.MaxValue, 1, 0]).NotMet?
  {
    var c := [Int32.MaxValue, 1, 0];
    assert c[..2] == [Int32.MaxValue, 1];
    assert c[..2][..1] == [Int32.MaxValue];
    assert c[..2][..1][..0] == [];
    assert Sum(c[..2][..1]) == Int32.MaxValue;
    assert Int32.Wrap(Int32.MaxValue + 1) == Int32.MinValue;
  }

  /** No more planets are live than the list holds. */
  lemma {:induction false} LiveCountBound(ps: seq<Planet>)
    ensures Levels.LiveCount(ps) <= |ps|
    decreases |ps|
  {
    if |ps| > 0 {
      LiveCountBound(ps[..|ps| - 1]);
    }
  }

  /** The exception message of a broken requirement. */
  function Message(kind: Kind, n: int): string {
    match kind
    case TooManyBadPlanets => "Too many Bad planets - maximum of " + IntToString(n) + " required"
    case TooFewTotalPlanets => "Too few total planets - minimum of " + IntToString(n) + " required"
    case TooFewGoodPlanets => "Too few Good planets - minimum of " + IntToString(n) + " required"
  }

  /** The label `ToString` gives a requirement. */
  function Label(kind: Kind): string {
    match kind
    case TooManyBadPlanets => "Maximum Bad planets: "
    case TooFewTotalPlanets => "Minimum total planets: "
    case TooFewGoodPlanets => "Minimum Good planets: "
  }

  /**
   * The outcome of `Check` on the counts: more Bad planets than the maximum,
   * fewer planets in total or fewer Good planets than the minimum breaks the
   * requirement; reading a slot the array lacks throws.
   */
  function Evaluate(kind: Kind, n: int, counts: seq<int>): Outcome {
    match kind
    case TooManyBadPlanets =>
      if |counts| <= Bad then IndexFault else if counts[Bad] > n then NotMet(Message(kind, n)) else Met
    case TooFewTotalPlanets =>
      if Sum(counts) < n then NotMet(Message(kind, n)) else Met
    case TooFewGoodPlanets =>
      if |counts| <= Good then IndexFault else if counts[Good] < n then NotMet(Message(kind, n)) else Met
  }

  /**
   * On the live-planet counts of a level whose live planets all have a
   * declared type, each requirement is broken exactly when its own count of
   * planets passes the number: Bad planets above a maximum, live planets or
   * Good planets below a minimum. A .NET list holds at most `int.MaxValue`
   * planets, so the total cannot wrap.
   */
  lemma EvaluateOnTally(n: int, ps: seq<Planet>)
    requires Levels.AllLiveDeclared(ps) && |ps| <= Int32.MaxValue
    ensures Evaluate(TooManyBadPlanets, n, Levels.Tally(ps)).NotMet? <==> Levels.CountKind(ps, Bad) > n
    ensures Evaluate(TooFewTotalPlanets, n, Levels.Tally(ps)).NotMet? <==> Levels.LiveCount(ps) < n
    ensures Evaluate(TooFewGoodPlanets, n, Levels.Tally(ps)).NotMet? <==> Levels.CountKind(ps, Good) < n
    ensures forall k: Kind :: Evaluate(k, n, Levels.Tally(ps)) != IndexFault
  {
    var c := Levels.Tally(ps);
    TallySum(ps);
    assert |c| == 3 && c[Bad] == Levels.CountKind(ps, Bad) && c[Good] == Levels.CountKind(ps, Good);
    forall k: Kind
      ensures Evaluate(k, n, c) != IndexFault
    {
    }
  }

  /** On a live-planet tally of an `int`-sized list, the wrapped total is the number of live planets. */
  lemma TallySum(ps: seq<Planet>)
    requires Levels.AllLiveDeclared(ps) && |ps| <= Int32.MaxValue
    ensures Sum(Levels.Tally(ps)) == Levels.LiveCount(ps)
  {
    Levels.TallyCountsLivePlanets(ps);
    LiveCountBound(ps);
    var good: nat, neutral: nat, bad: nat := Levels.CountKind(ps, Good), Levels.CountKind(ps, Neutral), Levels.CountKind(ps, Bad);
    assert Levels.Tally(ps) == [good, neutral, bad];
    SumOfThree(good, neutral, bad);
  }

  /** The number of a requirement is read back from the text `ToString` gives it. */
  lemma LabelRoundTrip(kind: Kind, n: int)
    ensures var text := Label(kind) + IntToString(n);
      ParseDecimal(text[|Label(kind)|..]) == Some(n)
  {
    var text := Label(kind) + IntToString(n);
    assert text[|Label(kind)|..] == IntToString(n);
    IntToStringRoundTrip(n);
  }

  class LoseCondition {
    const kind: Kind
    const minmaxNumber: int
    /** The caller's count array, shared, not copied. */
    const planetTypeCount: array<int>

    constructor (kind: Kind, minmaxNumber: int, planetTypeCount: array<int>)
      ensures this.kind == kind && this.minmaxNumber == minmaxNumber && this.planetTypeCount == planetTypeCount
    {
      this.kind := kind;
      this.minmaxNumber := minmaxNumber;
      this.planetTypeCount := planetTypeCount;
    }

    /** `Check` on the array as it is now. */
    method Check() returns (r: Outcome)
      ensures r == Evaluate(kind, minmaxNumber, planetTypeCount[..])
    {
      var counts := planetTypeCount;
      match kind
      case TooManyBadPlanets =>
        if counts.Length <= Bad {
          return IndexFault;
        }
        r := if counts[Bad] > minmaxNumber then NotMet(Message(kind, minmaxNumber)) else Met;
      case TooFewTotalPlanets =>
        var planetCount := SumCounts();
        r := if planetCount < minmaxNumber then NotMet(Message(kind, minmaxNumber)) else Met;
      case TooFewGoodPlanets =>
        if counts.Length <= Good {
          return IndexFault;
        }
        r := if counts[Good] < minmaxNumber then NotMet(Message(kind, minmaxNumber)) else Met;
    }

    /** The `foreach` of `TooFewTotalPlanets.Check`. */
    method SumCounts() returns (planetCount: int)
      ensures planetCount == Sum(planetTypeCount[..])
    {
      planetCount := 0;
      for i := 0 to planetTypeCount.Length
        invariant planetCount == Sum(planetTypeCount[..i])
      {
        assert planetTypeCount[..i + 1][..i] == planetTypeCount[..i];
        planetCount := Int32.Wrap(planetCount + planetTypeCount[i]);
      }
      assert planetTypeCount[..planetTypeCount.Length] == planetTypeCount[..];
    }

    /** `ToString`: the requirement's label and its number. */
    function ToString(): (text: string)
      ensures |text| > |Label(kind)| && text[..|Label(kind)|] == Label(kind)
      ensures ParseDecimal(text[|Label(kind)|..]) == Some(minmaxNumber)
    {
      LabelRoundTrip(kind, minmaxNumber);
      Label(kind) + IntToString(minmaxNumber)
    }
  }
}
