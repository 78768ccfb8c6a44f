/** The guard engine: the static class Require of Requires/Requires.cs.

    Every guard checks one condition. When it holds the guard returns Ok and
    builds nothing; otherwise it raises, through ThrowHelper.Throw, a failure
    whose message is
        "Requirement failed. " + <clause> + ". " + <caller message>
    The expression labels that C# captures with CallerArgumentExpression
    are explicit string parameters here, and a nullable value is an Option.
 */
module Require {
  import opened Wrappers
  import opened Strings
  import ThrowHelper

  /** The text every failure message starts with. */
  const Prefix := "Requirement failed. "

  /** The message a failed guard raises, for a guard-specific clause and the
      caller's message: the fixed prefix, the clause, ". ", then the caller's
      message exactly as given. */
  function FailureMessage(clause: string, message: string): (s: string)
    ensures StartsWith(s, Prefix + clause + ". ")
    ensures EndsWith(s, ". " + message)
    ensures |s| == |Prefix| + |clause| + 2 + |message|
  {
    Prefix + clause + ". " + message
  }

  // ---------------------------------------------------------------------
  // Guard-specific clauses (the text between the prefix and ". ")

  function NullClause(valueExpression: string): string {
    "Expected (" + valueExpression + ") to be null"
  }

  function NonNullClause(valueExpression: string): string {
    "Expected (" + valueExpression + ") to be non-null"
  }

  /** The clause of IsTrue and IsFalse, naming the outcome the guard reports
      as expected. */
  function EvaluateClause(expectedExpression: string, outcome: string): string {
    "Expected (" + expectedExpression + ") to evaluate to " + outcome
  }

  /** The clause of AreEqual ("=="), NotEqual ("!=") and ApproxEqual ("~="). */
  function ComparisonClause(expectedExpression: string, op: string, actualExpression: string): string {
    "Expected " + expectedExpression + " " + op + " " + actualExpression
  }

  function RangeClause(value: string, minimum: string, maximum: string): string {
    "Expected " + value + " to be in range " + Interval(minimum, maximum)
  }

  /** The closed interval as the range message writes it. */
  function Interval(minimum: string, maximum: string): string {
    "[" + minimum + ", " + maximum + "]"
  }

  function TypeClause(expectedType: string, foundType: string): string {
    "Expected object of type " + expectedType + ", but found " + foundType
  }

  // ---------------------------------------------------------------------
  // Nullness

  /** Succeeds exactly when `value` is null. */
  function IsNull<T>(value: Option<T>, message: string, valueExpression: string): (r: Outcome)
    ensures r.Ok? <==> value == None
    ensures r.Fail? ==> r.errorMessage == FailureMessage(NullClause(valueExpression), message)
  {
    if value.None? then Ok
    else ThrowHelper.Throw(FailureMessage(NullClause(valueExpression), message))
  }

  /** Succeeds exactly when `value` is non-null. */
  function IsNotNull<T>(value: Option<T>, message: string, valueExpression: string): (r: Outcome)
    ensures r.Ok? <==> value != None
    ensures r.Fail? ==> r.errorMessage == FailureMessage(NonNullClause(valueExpression), message)
  {
    if value.Some? then Ok
    else ThrowHelper.Throw(FailureMessage(NonNullClause(valueExpression), message))
  }

  // ---------------------------------------------------------------------
  // Truth

  /** Succeeds exactly when `condition` holds. As written, its failure clause
      says the expression was expected to evaluate to False. */
  function IsTrue(condition: bool, message: string, expectedExpression: string): (r: Outcome)
    ensures r.Ok? <==> condition
    ensures r.Fail? ==> r.errorMessage == FailureMessage(EvaluateClause(expectedExpression, "False"), message)
  {
    if condition then Ok
    else ThrowHelper.Throw(FailureMessage(EvaluateClause(expectedExpression, "False"), message))
  }

  /** IsTrue with the failure clause naming the outcome it expects, True. */
  function IsTrueCorrected(condition: bool, message: string, expectedExpression: string): (r: Outcome)
    ensures r.Ok? <==> condition
    ensures r.Fail? ==> r.errorMessage == FailureMessage(EvaluateClause(expectedExpression, "True"), message)
  {
    if condition then Ok
    else ThrowHelper.Throw(FailureMessage(EvaluateClause(expectedExpression, "True"), message))
  }

  /** Succeeds exactly when `condition` does not hold. */
  function IsFalse(condition: bool, message: string, expectedExpression: string): (r: Outcome)
    ensures r.Ok? <==> !condition
    ensures r.Fail? ==> r.errorMessage == FailureMessage(EvaluateClause(expectedExpression, "False"), message)
  {
    if !condition then Ok
    else ThrowHelper.Throw(FailureMessage(EvaluateClause(expectedExpression, "False"), message))
  }

  // ---------------------------------------------------------------------
  // Equality

  /** The static Object.Equals(a, b) that AreEqual and NotEqual call:
      two nulls are equal, a null never equals a non-null value, and two
      present values are compared with the element type's equality. */
  predicate NullSafeEquals<T(==)>(a: Option<T>, b: Option<T>)
    ensures NullSafeEquals(a, b) <==> a == b
  {
    match (a, b)
    case (None, None) => true
    case (Some(x), Some(y)) => x == y
    case _ => false
  }

  /** Succeeds exactly when the two values are null-safe equal. */
  function AreEqual<T(==)>(expected: Option<T>, actual: Option<T>, message: string,
                           expectedExpression: string, actualExpression: string): (r: Outcome)
    ensures r.Ok? <==> expected == actual
    ensures r.Fail? ==> r.errorMessage == FailureMessage(ComparisonClause(expectedExpression, "==", actualExpression), message)
  {
    if NullSafeEquals(expected, actual) then Ok
    else ThrowHelper.Throw(FailureMessage(ComparisonClause(expectedExpression, "==", actualExpression), message))
  }

  /** Succeeds exactly when the two values are not null-safe equal. */
  function NotEqual<T(==)>(expected: Option<T>, actual: Option<T>, message: string,
                           expectedExpression: string, actualExpression: string): (r: Outcome)
    ensures r.Ok? <==> expected != actual
    ensures r.Fail? ==> r.errorMessage == FailureMessage(ComparisonClause(expectedExpression, "!=", actualExpression), message)
  {
    if !NullSafeEquals(expected, actual) then Ok
    else ThrowHelper.Throw(FailureMessage(ComparisonClause(expectedExpression, "!=", actualExpression), message))
  }

  /** Both ApproxEqual overloads (float and double). The tolerance test of
      Util.IsApproxEqual is the parameter `approx`. */
  function ApproxEqual<F>(approx: (F, F) -> bool, expected: F, actual: F, message: string,
                          expectedExpression: string, actualExpression: string): (r: Outcome)
    ensures r.Ok? <==> approx(expected, actual)
    ensures r.Fail? ==> r.errorMessage == FailureMessage(ComparisonClause(expectedExpression, "~=", actualExpression), message)
  {
    if approx(expected, actual) then Ok
    else ThrowHelper.Throw(FailureMessage(ComparisonClause(expectedExpression, "~=", actualExpression), message))
  }

  // ---------------------------------------------------------------------
  // Range

  /** IComparable<int>.CompareTo: the sign of the result orders a against b. */
  function IntCompareTo(a: int, b: int): (c: int)
    ensures c == -1 || c == 0 || c == 1
    ensures c < 0 <==> a < b
    ensures c == 0 <==> a == b
    ensures c > 0 <==> b < a
  {
    if a < b then -1 else if a > b then 1 else 0
  }

  /** InRange<T> for T : IComparable<T>: `compareTo` is T's CompareTo and
      `show` the ToString used when the message interpolates a value.
      Succeeds exactly when value compares at or above minimum and at or
      below maximum. */
  function InRange<T>(compareTo: (T, T) -> int, show: T -> string,
                      value: T, minimum: T, maximum: T, message: string): (r: Outcome)
    ensures r.Ok? <==> compareTo(value, minimum) >= 0 && compareTo(value, maximum) <= 0
    ensures r.Fail? ==> r.errorMessage == FailureMessage(RangeClause(show(value), show(minimum), show(maximum)), message)
  {
    if compareTo(value, minimum) >= 0 && compareTo(value, maximum) <= 0 then Ok
    else ThrowHelper.Throw(FailureMessage(RangeClause(show(value), show(minimum), show(maximum)), message))
  }

  // ---------------------------------------------------------------------
  // Runtime type

  /** What IsType needs of the runtime: the runtime type of an object
      (GetType), whether a value of one type is an instance of another (the
      test `obj is T` makes on a non-null obj), and a type's printed name. */
  datatype Runtime<!O, !Ty> = Runtime(typeOf: O -> Ty, isInstanceOf: (Ty, Ty) -> bool, typeName: Ty -> string)

  /** `obj?.GetType()` as interpolated into a message: the empty text when
      obj is null, the runtime type's name otherwise. */
  function FoundTypeName<O, Ty>(rt: Runtime<O, Ty>, obj: Option<O>): (name: string)
    ensures obj == None ==> name == ""
    ensures obj != None ==> name == rt.typeName(rt.typeOf(obj.value))
  {
    match obj
    case None => ""
    case Some(o) => rt.typeName(rt.typeOf(o))
  }

  /** IsType<T>: succeeds exactly when obj is non-null and its runtime type
      is an instance of `target`. */
  function IsType<O, Ty>(rt: Runtime<O, Ty>, target: Ty, obj: Option<O>, message: string): (r: Outcome)
    ensures r.Ok? <==> obj != None && rt.isInstanceOf(rt.typeOf(obj.value), target)
    ensures r.Fail? ==> r.errorMessage == FailureMessage(TypeClause(rt.typeName(target), FoundTypeName(rt, obj)), message)
  {
    if obj.Some? && rt.isInstanceOf(rt.typeOf(obj.value), target) then Ok
    else ThrowHelper.Throw(FailureMessage(TypeClause(rt.typeName(target), FoundTypeName(rt, obj)), message))
  }
}
