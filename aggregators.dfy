/**
  The combine rules of the aggregators the registry merges bodies under
  (dyna/aggregators.py): `=`, the saturating boolean aggregators and `:=`.
  The saturation exception (AggregatorSaturated) is a result variant.
*/
module Aggregators {
  import opened Wrappers
  import opened RExprs

  /** What lifting or combining gives: a value, or the signal that the aggregate is saturated. */
  datatype Combined = Plain(v: Value) | Saturated(v: Value)

  /** The two Python operators the saturating aggregators combine with. */
  datatype BoolOp = PyOr | PyAnd

  /** The kinds of aggregator in the AGGREGATORS table. */
  datatype AggregatorKind =
    | EqualAgg
      /** AggregatorOpImpl, defined outside this model: only its name and flag are kept. */
    | OpImpl(opName: string, flag: bool)
    | SaturateAgg(op: BoolOp, saturated: Value)
    | ColonEquals

  /** `a or b` and `a and b` as Python evaluates them: one of the operands is returned. */
  function ApplyOp(op: BoolOp, a: Value, b: Value): (r: Value)
    ensures r == a || r == b
    ensures op == PyOr ==> (Truthy(r) <==> Truthy(a) || Truthy(b))
    ensures op == PyAnd ==> (Truthy(r) <==> Truthy(a) && Truthy(b))
  {
    match op
    case PyOr => if Truthy(a) then a else b
    case PyAnd => if Truthy(a) then b else a
  }

  /** The AGGREGATORS table (aggregators.py:73-83). */
  function AggregatorNamed(name: string): Option<AggregatorKind> {
    match name
    case "=" => Some(EqualAgg)
    case "+=" => Some(OpImpl("+", false))
    case "*=" => Some(OpImpl("*", false))
    case "max=" => Some(OpImpl("max", true))
    case "min=" => Some(OpImpl("min", true))
    case ":-" => Some(SaturateAgg(PyOr, Bool(true)))
    case "|=" => Some(SaturateAgg(PyOr, Bool(true)))
    case "&=" => Some(SaturateAgg(PyAnd, Bool(false)))
    case ":=" => Some(ColonEquals)
    case _ => None
  }

  const EqualConflictMessage: string := "Aggregator `=` should not have more than one value"

  /** AggregatorEqual.combine: two values under `=` are a conflict, reported as an `$error` term. */
  function EqualCombine(a: Value, b: Value): (r: Value)
    ensures r.Structure? && r.name == "$error" && r.arguments == [Str(EqualConflictMessage)]
  {
    Structure("$error", [Str(EqualConflictMessage)])
  }

  /** AggregatorSaturate.lift: a value equal to the saturated one signals saturation. */
  function SaturateLift(saturated: Value, x: Value): (r: Combined)
    ensures r.v == x
    ensures r.Saturated? <==> x == saturated
  {
    if saturated == x then Saturated(x) else Plain(x)
  }

  /** AggregatorSaturate.combine: op(a, b), signalling saturation when it equals the saturated value. */
  function SaturateCombine(op: BoolOp, saturated: Value, a: Value, b: Value): (r: Combined)
    ensures r.v == ApplyOp(op, a, b)
    ensures r.Saturated? <==> r.v == saturated
  {
    var c := ApplyOp(op, a, b);
    if saturated == c then Saturated(c) else Plain(c)
  }

  /** The lift and combine of a table entry, for the entries that saturate. */
  function CombineNamed(name: string, a: Value, b: Value): (r: Option<Combined>)
    ensures r.Some? <==> name in {":-", "|=", "&="}
  {
    match AggregatorNamed(name)
    case Some(SaturateAgg(op, sat)) => Some(SaturateCombine(op, sat, a, b))
    case _ => None
  }

  /**
    `:-` and `|=` combine booleans with `or` and are saturated by true; `&=` combines with
    `and` and is saturated by false.
  */
  lemma BooleanAggregatorsSaturate(name: string, a: bool, b: bool)
    requires name == ":-" || name == "|=" || name == "&="
    ensures name != "&=" ==>
              CombineNamed(name, Bool(a), Bool(b))
              == (if a || b then Some(Saturated(Bool(true))) else Some(Plain(Bool(false))))
    ensures name == "&=" ==>
              CombineNamed(name, Bool(a), Bool(b))
              == (if a && b then Some(Plain(Bool(true))) else Some(Saturated(Bool(false))))
  {
  }

  /** Once the saturated value is reached, combining it with anything saturates again. */
  lemma SaturationAbsorbs(name: string, b: Value)
    requires name == ":-" || name == "|=" || name == "&="
    ensures var sat := AggregatorNamed(name).value.saturated;
      CombineNamed(name, sat, b) == Some(Saturated(sat))
  {
  }

  const NullTerm: Value := Structure("$null", [])

  /** A `$colon_line_tracking` term with at least a line and a value. */
  predicate IsColonTerm(x: Value) {
    x.Structure? && x.name == "$colon_line_tracking" && |x.arguments| >= 2
  }

  /** A `$colon_line_tracking(line, value)` term as the `:=` aggregator stores it: the line is an integer. */
  predicate IsLineTracked(x: Value) {
    IsColonTerm(x) && x.arguments[0].Int?
  }

  function LineOf(x: Value): int
    requires IsLineTracked(x)
  {
    x.arguments[0].i
  }

  /** AggregatorColonEquals.lower: the stored value, or None when it is the `$null` term. */
  function ColonLower(x: Value): (r: Option<Value>)
    requires IsColonTerm(x)
    ensures r.None? <==> x.arguments[1] == NullTerm
    ensures r.Some? ==> r.value == x.arguments[1]
  {
    if x.arguments[1] == NullTerm then None else Some(x.arguments[1])
  }

  /** AggregatorColonEquals.combine: the later line wins, and b wins a tie. */
  function ColonCombine(a: Value, b: Value): (r: Value)
    requires IsLineTracked(a) && IsLineTracked(b)
    ensures r == a || r == b
    ensures IsLineTracked(r) && LineOf(r) >= LineOf(a) && LineOf(r) >= LineOf(b)
    ensures LineOf(a) == LineOf(b) ==> r == b
  {
    if LineOf(a) > LineOf(b) then a else b
  }

  /** Last-line-wins does not depend on the grouping of the combines. */
  lemma ColonCombineAssociative(a: Value, b: Value, c: Value)
    requires IsLineTracked(a) && IsLineTracked(b) && IsLineTracked(c)
    ensures ColonCombine(ColonCombine(a, b), c) == ColonCombine(a, ColonCombine(b, c))
  {
  }

  /** With distinct lines, last-line-wins does not depend on the order of the combines. */
  lemma ColonCombineCommutesOnDistinctLines(a: Value, b: Value)
    requires IsLineTracked(a) && IsLineTracked(b) && LineOf(a) != LineOf(b)
    ensures ColonCombine(a, b) == ColonCombine(b, a)
  {
  }

  /** The process-wide line counter behind colon_line_tracking (aggregators.py:47-51). */
  class LineCounter {
    var last: int

    ghost predicate Valid()
      reads this
    {
      last >= -1
    }

    constructor ()
      ensures Valid() && last == -1
    {
      last := -1;
    }

    /** colon_line_tracking: the next line index, one more than the previous one. */
    method Next() returns (n: nat)
      requires Valid()
      modifies this
      ensures Valid()
      ensures n == old(last) + 1 && last == n
    {
      last := last + 1;
      n := last;
    }
  }
}
