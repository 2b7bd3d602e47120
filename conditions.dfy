/**
 * Win conditions of a level (Zapoctak.Net1/ExpressionParser.cs and the older
 * ZapoctakProg2/ExpressionParser.cs).
 *
 * A condition is written in the level file as a one-parameter lambda over the
 * level, such as `l => l.PlanetCountByType[Good] >= 3`. `Parse` splits it at
 * "=>", trims the parameter name and replaces the planet-type keywords by
 * their numbers; the resulting text is compiled by the Dynamic LINQ library,
 * which is not part of this model and is a parameter here. What it yields is
 * an expression tree, the datatype `Expr`, over the only two members of
 * `Level` a condition can reach: `PlanetCountByType[i]` and `Planets.Count`.
 */
module WinConditions {
  import opened Wrappers
  import opened Strings
  import Int32
  import Bodies

  /** The `ExpressionType` of a binary node. */
  datatype BinOp =
    | Add | Subtract | Multiply | Divide | Modulo
    | AndAlso | OrElse
    | Equal | NotEqual | GreaterThan | LessThan | LessThanOrEqual | GreaterThanOrEqual

  /** An expression tree over the level parameter. */
  datatype Expr =
    | CountOf(index: int)            // param.PlanetCountByType[index]
    | TotalPlanets                   // param.Planets.Count
    | Const(value: int)
    | BoolConst(truth: bool)
    | Binary(op: BinOp, left: Expr, right: Expr)
    | Not(operand: Expr)

  /** A compiled condition: the lambda's parameter name and its body. */
  datatype Condition = Condition(param: string, body: Expr)

  // ---------------------------------------------------------------- parsing

  /** The lambda text after `Parse`'s preprocessing, before compilation. */
  datatype Lambda = Lambda(param: string, body: string)

  const Arrow: string := "=>"
  const TrimmedChars: set<char> := {'(', ')', ' '}

  /** The body with the type keywords replaced, in the order Good, Neutral, Bad. */
  function ReplaceKeywords(body: string): string {
    Replace(Replace(Replace(body, "Good", "0"), "Neutral", "1"), "Bad", "2")
  }

  /**
   * The string work of `Parse`: segment 0 of the "=>" split, trimmed, is the
   * parameter name and segment 1 is the body. Text without "=>" has no
   * segment 1, and indexing it throws.
   */
  function Preprocess(text: string): Option<Lambda> {
    var parts := Split(text, Arrow);
    if |parts| < 2 then None
    else Some(Lambda(Trim(parts[0], TrimmedChars), ReplaceKeywords(parts[1])))
  }

  /** `Parse`: preprocessing, then the foreign `ParseLambda`, which may reject the text. */
  function Parse(text: string, parseLambda: Lambda -> Option<Expr>): (r: Option<Condition>)
    ensures r.Some? ==> Preprocess(text).Some? && parseLambda(Preprocess(text).value) == Some(r.value.body)
  {
    match Preprocess(text)
    case None => None
    case Some(l) =>
      match parseLambda(l)
      case None => None
      case Some(body) => Some(Condition(l.param, body))
  }

  /** Preprocessing fails exactly when the text holds no "=>". */
  lemma PreprocessNeedsArrow(text: string)
    ensures Preprocess(text).None? <==> !Occurs(Arrow, text)
  {
    SplitSingleSegment(text, Arrow);
  }

  /** No planet-type keyword is left in a preprocessed body. */
  lemma NoKeywordRemains(body: string)
    ensures !Occurs("Good", ReplaceKeywords(body))
    ensures !Occurs("Neutral", ReplaceKeywords(body))
    ensures !Occurs("Bad", ReplaceKeywords(body))
  {
    var s1 := Replace(body, "Good", "0");
    var s2 := Replace(s1, "Neutral", "1");
    ReplaceLeavesNoOccurrence(body, "Good", "0", "Good");
    ReplaceLeavesNoOccurrence(s1, "Neutral", "1", "Neutral");
    ReplaceLeavesNoOccurrence(s1, "Neutral", "1", "Good");
    ReplaceLeavesNoOccurrence(s2, "Bad", "2", "Bad");
    ReplaceLeavesNoOccurrence(s2, "Bad", "2", "Neutral");
    ReplaceLeavesNoOccurrence(s2, "Bad", "2", "Good");
  }

  /**
   * The parameter name is the text before the first "=>", with '(', ')' and
   * ' ' stripped from both ends.
   */
  lemma ParamPrecedesFirstArrow(text: string)
    requires Preprocess(text).Some?
    ensures exists head, tail :: text == head + Arrow + tail && !Occurs(Arrow, head)
                                 && Preprocess(text).value.param == Trim(head, TrimmedChars)
    ensures var p := Preprocess(text).value.param;
      |p| > 0 ==> p[0] !in TrimmedChars && p[|p| - 1] !in TrimmedChars
  {
    var parts := Split(text, Arrow);
    SplitJoin(text, Arrow);
    SplitHeadFree(text, Arrow);
    assert text == parts[0] + Arrow + Join(parts[1..], Arrow);
    var p := Preprocess(text).value.param;
    var u := TrimStart(parts[0], TrimmedChars);
    if |p| > 0 {
      assert p[0] == u[0];
    }
  }

  // ---------------------------------------------------------------- rendering and description

  /** The text .NET's `ExpressionType` printing uses between the operands of a binary node. */
  function Symbol(op: BinOp): string {
    match op
    case Add => "+"
    case Subtract => "-"
    case Multiply => "*"
    case Divide => "/"
    case Modulo => "%"
    case AndAlso => "AndAlso"
    case OrElse => "OrElse"
    case Equal => "=="
    case NotEqual => "!="
    case GreaterThan => ">"
    case LessThan => "<"
    case LessThanOrEqual => "<="
    case GreaterThanOrEqual => ">="
  }

  function IndexText(param: string, i: int): string {
    param + ".PlanetCountByType[" + IntToString(i) + "]"
  }

  function CountText(param: string): string {
    param + ".Planets.Count"
  }

  /** `expr.ToString()`: how .NET prints an expression tree whose parameter is named `param`. */
  function Render(e: Expr, param: string): (text: string)
    ensures |text| > 0
  {
    match e
    case CountOf(i) => IndexText(param, i)
    case TotalPlanets => CountText(param)
    case Const(v) => IntToString(v)
    case BoolConst(b) => if b then "True" else "False"
    case Binary(op, l, r) => "(" + Render(l, param) + " " + Symbol(op) + " " + Render(r, param) + ")"
    case Not(x) => "Not(" + Render(x, param) + ")"
  }

  /** `OperatorDict`: the words a description puts between its operands. */
  function Connective(op: BinOp): Option<string> {
    match op
    case Add => Some(" + ")
    case Subtract => Some(" - ")
    case Multiply => Some(" * ")
    case Divide => Some(" / ")
    case OrElse => Some(" OR ")
    case AndAlso => Some(" AND ")
    case Equal => Some(" required exactly ")
    case GreaterThan => Some(" required more than ")
    case LessThan => Some(" required less than ")
    case LessThanOrEqual => Some(" required at most ")
    case GreaterThanOrEqual => Some(" required at least ")
    case Modulo => None
    case NotEqual => None
  }

  /**
   * `GenerateDescriptionInternal`: the printed node is first compared with the
   * four leaf texts; a binary node with a known operator is described from its
   * operands; anything else is described by its own printed text.
   */
  function Describe(e: Expr, param: string): string {
    var text := Render(e, param);
    if text == IndexText(param, 0) then "Good planets"
    else if text == IndexText(param, 1) then "Neutral planets"
    else if text == IndexText(param, 2) then "Bad planets"
    else if text == CountText(param) then "Total planets"
    else match e
      case Binary(op, l, r) =>
        (match Connective(op)
         case Some(c) => Describe(l, param) + c + Describe(r, param)
         case None => text)
      case _ => text
  }

  /** `GenerateDescription` of a compiled condition. */
  function GenerateDescription(c: Condition): string {
    Describe(c.body, c.param)
  }

  /**
   * The description the design intends, read off the tree itself rather than
   * its printed text: the three counts and the total get their names, a
   * binary node with a known operator is described from its operands.
   */
  function Words(e: Expr, param: string): string {
    match e
    case CountOf(i) =>
      if i == 0 then "Good planets" else if i == 1 then "Neutral planets"
      else if i == 2 then "Bad planets" else Render(e, param)
    case TotalPlanets => "Total planets"
    case Binary(op, l, r) =>
      (match Connective(op)
       case Some(c) => Words(l, param) + c + Words(r, param)
       case None => Render(e, param))
    case _ => Render(e, param)
  }

  function Last(s: string): char
    requires |s| > 0
  {
    s[|s| - 1]
  }

  lemma IntToStringEndsInDigit(i: int)
    ensures |IntToString(i)| > 0 && '0' <= Last(IntToString(i)) <= '9'
  {
  }

  /** Printed trees that are not leaves end in a character no leaf text ends in. */
  lemma RenderLast(e: Expr, param: string)
    ensures e.CountOf? ==> Last(Render(e, param)) == ']'
    ensures e.TotalPlanets? ==> Last(Render(e, param)) == 't'
    ensures !e.CountOf? && !e.TotalPlanets? ==> Last(Render(e, param)) != ']' && Last(Render(e, param)) != 't'
  {
    if e.Const? {
      IntToStringEndsInDigit(e.value);
    }
  }

  /** Two count leaves print alike only when they index the same slot. */
  lemma IndexTextInjective(param: string, i: int, j: int)
    requires IndexText(param, i) == IndexText(param, j)
    ensures i == j
  {
    var prefix := param + ".PlanetCountByType[";
    var a, b := IntToString(i), IntToString(j);
    assert IndexText(param, i) == prefix + a + "]";
    assert IndexText(param, j) == prefix + b + "]";
    assert a == IndexText(param, i)[|prefix|..|prefix| + |a|];
    assert b == IndexText(param, j)[|prefix|..|prefix| + |b|];
    IntToStringRoundTrip(i);
    IntToStringRoundTrip(j);
  }

  /**
   * Comparing printed text picks out exactly the tree shapes the design
   * names: for every tree and every parameter name the description equals
   * the structural one.
   */
  lemma {:induction false} DescribeIsStructural(e: Expr, param: string)
    ensures Describe(e, param) == Words(e, param)
  {
    var text := Render(e, param);
    RenderLast(e, param);
    RenderLast(CountOf(0), param);
    RenderLast(TotalPlanets, param);
    match e
    case CountOf(i) =>
      if text == IndexText(param, 0) {
        IndexTextInjective(param, i, 0);
      } else if text == IndexText(param, 1) {
        IndexTextInjective(param, i, 1);
      } else if text == IndexText(param, 2) {
        IndexTextInjective(param, i, 2);
      }
    case TotalPlanets =>
      assert Last(IndexText(param, 0)) == ']';
      assert Last(IndexText(param, 1)) == ']';
      assert Last(IndexText(param, 2)) == ']';
    case Binary(op, l, r) =>
      assert Last(IndexText(param, 1)) == ']';
      assert Last(IndexText(param, 2)) == ']';
      DescribeIsStructural(l, param);
      DescribeIsStructural(r, param);
    case _ =>
      assert Last(IndexText(param, 1)) == ']';
      assert Last(IndexText(param, 2)) == ']';
  }

  // ---------------------------------------------------------------- evaluation

  datatype Value = IntValue(i: int) | BoolValue(b: bool)

  function Compare(op: BinOp, a: int, b: int): bool
    requires op.Equal? || op.NotEqual? || op.GreaterThan? || op.LessThan?
             || op.LessThanOrEqual? || op.GreaterThanOrEqual?
  {
    match op
    case Equal => a == b
    case NotEqual => a != b
    case GreaterThan => a > b
    case LessThan => a < b
    case LessThanOrEqual => a <= b
    case GreaterThanOrEqual => a >= b
  }

  /**
   * Unchecked 32-bit arithmetic on two C# ints; `None` where .NET throws
   * (division by zero, and `int.MinValue / -1`).
   */
  function Arithmetic(op: BinOp, a: int, b: int): (r: Option<int>)
    requires op.Add? || op.Subtract? || op.Multiply? || op.Divide? || op.Modulo?
    ensures r.Some? ==> Int32.InRange(r.value)
    ensures r.None? <==> (op.Divide? || op.Modulo?) && (b == 0 || (a == Int32.MinValue && b == -1))
  {
    match op
    case Add => Some(Int32.Wrap(a + b))
    case Subtract => Some(Int32.Wrap(a - b))
    case Multiply => Some(Int32.Wrap(a * b))
    case Divide =>
      if b == 0 || (a == Int32.MinValue && b == -1) then None else Some(Int32.Wrap(Int32.TruncDiv(a, b)))
    case Modulo =>
      if b == 0 || (a == Int32.MinValue && b == -1) then None else Some(Int32.Wrap(a - Int32.TruncDiv(a, b) * b))
  }

  /**
   * The compiled delegate applied to a level whose `PlanetCountByType` holds
   * `counts` and whose `Planets` list has `total` entries. `None` stands for
   * an exception: an index outside the array, a division by zero, or an
   * operand of the wrong type. `AND` and `OR` short-circuit.
   */
  function Eval(e: Expr, counts: seq<int>, total: int): Option<Value> {
    match e
    case CountOf(i) => if 0 <= i < |counts| then Some(IntValue(counts[i])) else None
    case TotalPlanets => Some(IntValue(total))
    case Const(v) => Some(IntValue(v))
    case BoolConst(b) => Some(BoolValue(b))
    case Not(x) =>
      (match Eval(x, counts, total)
       case Some(BoolValue(b)) => Some(BoolValue(!b))
       case _ => None)
    case Binary(op, l, r) =>
      if op.AndAlso? || op.OrElse? then
        match Eval(l, counts, total)
        case Some(BoolValue(a)) =>
          if a == op.OrElse? then Some(BoolValue(a))
          else (match Eval(r, counts, total)
                case Some(BoolValue(b)) => Some(BoolValue(b))
                case _ => None)
        case _ => None
      else
        match (Eval(l, counts, total), Eval(r, counts, total))
        case (Some(IntValue(a)), Some(IntValue(b))) =>
          if op.Add? || op.Subtract? || op.Multiply? || op.Divide? || op.Modulo? then
            (match Arithmetic(op, a, b) case Some(v) => Some(IntValue(v)) case None => None)
          else Some(BoolValue(Compare(op, a, b)))
        case (Some(BoolValue(a)), Some(BoolValue(b))) =>
          if op.Equal? then Some(BoolValue(a == b))
          else if op.NotEqual? then Some(BoolValue(a != b))
          else None
        case _ => None
  }

  /** `winCondition.Invoke(level)`: `None` when the delegate throws. */
  function Holds(c: Condition, counts: seq<int>, total: int): Option<bool> {
    match Eval(c.body, counts, total)
    case Some(BoolValue(b)) => Some(b)
    case _ => None
  }

  // ---------------------------------------------------------------- static types

  /** The static type the expression builder gives a node: `int` or `bool`. */
  datatype Type = IntType | BoolType

  /**
   * The static type of an expression; `None` where its operands do not fit
   * the operator. Arithmetic and ordering take two ints, `AND`, `OR` and
   * `NOT` take bools, and `=` and `!=` take two operands of the same type.
   */
  function TypeOf(e: Expr): Option<Type> {
    match e
    case CountOf(_) => Some(IntType)
    case TotalPlanets => Some(IntType)
    case Const(_) => Some(IntType)
    case BoolConst(_) => Some(BoolType)
    case Not(x) => if TypeOf(x) == Some(BoolType) then Some(BoolType) else None
    case Binary(op, l, r) =>
      var t := TypeOf(l);
      if t.None? || TypeOf(r) != t then None
      else if op.AndAlso? || op.OrElse? then (if t == Some(BoolType) then Some(BoolType) else None)
      else if op.Equal? || op.NotEqual? then Some(BoolType)
      else if t != Some(IntType) then None
      else if op.Add? || op.Subtract? || op.Multiply? || op.Divide? || op.Modulo? then Some(IntType)
      else Some(BoolType)
  }

  /**
   * Whether the compiled lambda is a `Func<Level, bool>`: the cast of the
   * compiled delegate succeeds exactly for a body of static type `bool`.
   */
  predicate IsPredicate(c: Condition) {
    TypeOf(c.body) == Some(BoolType)
  }

  /**
   * Typing is sound for evaluation: a well-typed expression either throws
   * or yields a value of its static type.
   */
  lemma {:induction false} EvalRespectsType(e: Expr, counts: seq<int>, total: int)
    ensures TypeOf(e) == Some(IntType) ==> Eval(e, counts, total).None? || Eval(e, counts, total).value.IntValue?
    ensures TypeOf(e) == Some(BoolType) ==> Eval(e, counts, total).None? || Eval(e, counts, total).value.BoolValue?
  {
    match e
    case Not(x) => EvalRespectsType(x, counts, total);
    case Binary(_, l, r) =>
      EvalRespectsType(l, counts, total);
      EvalRespectsType(r, counts, total);
    case _ =>
  }

  /**
   * A condition that passed the cast throws only for a reason the type
   * cannot rule out (an index outside the counts array, a division by zero
   * or `int.MinValue / -1`): whenever its body yields a value, the delegate
   * returns it.
   */
  lemma PredicateHolds(c: Condition, counts: seq<int>, total: int)
    requires IsPredicate(c)
    ensures Holds(c, counts, total).Some? <==> Eval(c.body, counts, total).Some?
    ensures Holds(c, counts, total).Some? ==> Eval(c.body, counts, total) == Some(BoolValue(Holds(c, counts, total).value))
  {
    EvalRespectsType(c.body, counts, total);
  }

  /** `AND` is true exactly when both sides are, and never looks at the right side after a false left side. */
  lemma AndAlsoMeaning(l: Expr, r: Expr, counts: seq<int>, total: int)
    ensures Eval(Binary(AndAlso, l, r), counts, total) == Some(BoolValue(true)) <==>
      Eval(l, counts, total) == Some(BoolValue(true)) && Eval(r, counts, total) == Some(BoolValue(true))
    ensures Eval(l, counts, total) == Some(BoolValue(false)) ==>
      Eval(Binary(AndAlso, l, r), counts, total) == Some(BoolValue(false))
  {
  }

  // ---------------------------------------------------------------- checking a level's goals

  /**
   * The outcome of the newer `CheckVictory` loop over the first `n`
   * conditions: whether all held, the text appended to the lose message (a
   * line per failed goal, in order), and whether a delegate threw, which
   * ends the loop.
   */
  datatype Judgement = Judgement(victory: bool, appended: string, faulted: bool)

  function Judge(conds: seq<Condition>, goals: seq<string>, counts: seq<int>, total: int, n: nat): Judgement
    requires n <= |conds| && |conds| == |goals|
    decreases n
  {
    if n == 0 then Judgement(true, "", false)
    else
      var j := Judge(conds, goals, counts, total, n - 1);
      if j.faulted then j
      else match Holds(conds[n - 1], counts, total)
        case None => j.(faulted := true)
        case Some(true) => j
        case Some(false) => Judgement(false, j.appended + "\n" + goals[n - 1], false)
  }

  /**
   * Without a throwing delegate, victory means every condition held; a fault
   * means some delegate threw.
   */
  lemma {:induction false} JudgeMeaning(conds: seq<Condition>, goals: seq<string>, counts: seq<int>, total: int, n: nat)
    requires n <= |conds| && |conds| == |goals|
    ensures var j := Judge(conds, goals, counts, total, n);
      (j.faulted <==> exists i :: 0 <= i < n && Holds(conds[i], counts, total).None?)
      && (!j.faulted ==> (j.victory <==> forall i :: 0 <= i < n ==> Holds(conds[i], counts, total) == Some(true)))
    decreases n
  {
    if n > 0 {
      JudgeMeaning(conds, goals, counts, total, n - 1);
    }
  }

  /**
   * The older `CheckVictory`: the conditions in order, returning false at the
   * first that fails; `None` when a delegate throws before that.
   */
  function AllHold(conds: seq<Condition>, counts: seq<int>, total: int): Option<bool>
    decreases |conds|
  {
    if |conds| == 0 then Some(true)
    else match Holds(conds[0], counts, total)
      case None => None
      case Some(false) => Some(false)
      case Some(true) => AllHold(conds[1..], counts, total)
  }

  /**
   * The older check is true exactly when every condition holds, and false
   * exactly when one fails with all before it holding.
   */
  lemma {:induction false} AllHoldMeaning(conds: seq<Condition>, counts: seq<int>, total: int)
    ensures AllHold(conds, counts, total) == Some(true) <==>
      forall i :: 0 <= i < |conds| ==> Holds(conds[i], counts, total) == Some(true)
    ensures AllHold(conds, counts, total) == Some(false) <==>
      exists i :: 0 <= i < |conds| && Holds(conds[i], counts, total) == Some(false)
        && forall m :: 0 <= m < i ==> Holds(conds[m], counts, total) == Some(true)
    decreases |conds|
  {
    if |conds| > 0 && Holds(conds[0], counts, total) == Some(true) {
      var rest := conds[1..];
      AllHoldMeaning(rest, counts, total);
      assert forall i :: 0 <= i < |rest| ==> rest[i] == conds[i + 1];
      if exists i :: 0 <= i < |conds| && Holds(conds[i], counts, total) == Some(false)
           && forall m :: 0 <= m < i ==> Holds(conds[m], counts, total) == Some(true) {
        var i :| 0 <= i < |conds| && Holds(conds[i], counts, total) == Some(false)
                 && forall m :: 0 <= m < i ==> Holds(conds[m], counts, total) == Some(true);
        assert rest[i - 1] == conds[i];
        assert forall m :: 0 <= m < i - 1 ==> Holds(rest[m], counts, total) == Some(true);
      }
      if AllHold(rest, counts, total) == Some(false) {
        var i :| 0 <= i < |rest| && Holds(rest[i], counts, total) == Some(false)
                 && forall m :: 0 <= m < i ==> Holds(rest[m], counts, total) == Some(true);
        assert forall m :: 0 <= m < i + 1 ==> Holds(conds[m], counts, total) == Some(true) by {
          forall m | 0 <= m < i + 1
            ensures Holds(conds[m], counts, total) == Some(true)
          {
            if m > 0 { assert conds[m] == rest[m - 1]; }
          }
        }
      }
    }
  }

  /**
   * When no delegate throws, the two generations agree on the verdict; the
   * newer one just keeps going to list every failed goal.
   */
  lemma GenerationsAgree(conds: seq<Condition>, goals: seq<string>, counts: seq<int>, total: int)
    requires |conds| == |goals|
    requires forall i :: 0 <= i < |conds| ==> Holds(conds[i], counts, total).Some?
    ensures !Judge(conds, goals, counts, total, |conds|).faulted
    ensures AllHold(conds, counts, total) == Some(Judge(conds, goals, counts, total, |conds|).victory)
  {
    JudgeMeaning(conds, goals, counts, total, |conds|);
    AllHoldDecides(conds, counts, total);
  }

  /** When no delegate throws, the older check answers whether every condition holds. */
  lemma {:induction false} AllHoldDecides(conds: seq<Condition>, counts: seq<int>, total: int)
    requires forall i :: 0 <= i < |conds| ==> Holds(conds[i], counts, total).Some?
    ensures AllHold(conds, counts, total) ==
      Some(forall i :: 0 <= i < |conds| ==> Holds(conds[i], counts, total) == Some(true))
    decreases |conds|
  {
    if |conds| > 0 {
      var rest := conds[1..];
      assert forall i :: 0 <= i < |rest| ==> rest[i] == conds[i + 1];
      AllHoldDecides(rest, counts, total);
    }
  }
}
