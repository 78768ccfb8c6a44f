/** Laws of the guard engine: complements between guards, the inclusive
    range, null-safe equality, and the layout of failure messages. */
module RequireLaws {
  import opened Wrappers
  import opened Strings
  import opened Require

  // ---------------------------------------------------------------------
  // Message layout shared by every guard

  /** A failure message starts with "Requirement failed. " and contains the
      caller's message verbatim. Every guard's failure message is a
      FailureMessage. */
  lemma FailureMessageLayout(clause: string, message: string)
    ensures StartsWith(FailureMessage(clause, message), Prefix)
    ensures Contains(FailureMessage(clause, message), message)
  {
  }

  /** Whatever occurs in the clause occurs in the failure message. */
  lemma FailureMessageContains(clause: string, message: string, t: string)
    requires Contains(clause, t)
    ensures Contains(FailureMessage(clause, message), t)
  {
    ContainsRight(Prefix, clause, t);
    ContainsLeft(Prefix + clause, ". ", t);
    ContainsLeft(Prefix + clause + ". ", message, t);
  }

  /** The guard-specific clause occurs in the failure message. */
  lemma FailureMessageMentionsClause(clause: string, message: string)
    ensures Contains(FailureMessage(clause, message), clause)
  {
    ContainsSelf(clause);
    FailureMessageContains(clause, message, clause);
  }

  // ---------------------------------------------------------------------
  // Nullness

  /** IsNotNull is the complement of IsNull on the same value, whatever the
      messages and labels: exactly one of them fails. */
  lemma NullChecksComplement<T>(value: Option<T>, m1: string, e1: string, m2: string, e2: string)
    ensures IsNull(value, m1, e1).Ok? <==> IsNotNull(value, m2, e2).Fail?
  {
  }

  // ---------------------------------------------------------------------
  // Truth

  /** IsFalse is the complement of IsTrue on the same condition. */
  lemma TruthChecksComplement(condition: bool, m1: string, e1: string, m2: string, e2: string)
    ensures IsTrue(condition, m1, e1).Ok? <==> IsFalse(condition, m2, e2).Fail?
  {
  }

  /** As written, a failed IsTrue and a failed IsFalse raise the very same
      message: both say the expression was expected to evaluate to False. */
  lemma TruthFailuresIndistinguishable(message: string, expectedExpression: string)
    ensures IsTrue(false, message, expectedExpression) == IsFalse(true, message, expectedExpression)
  {
  }

  /** On every failing condition the message IsTrue raises differs from the
      one it is evidently meant to raise, which names True as expected. */
  lemma IsTrueMessageDiffersFromIntended(message: string, expectedExpression: string)
    ensures IsTrue(false, message, expectedExpression) != IsTrueCorrected(false, message, expectedExpression)
  {
  }

  /** With the corrected clause IsTrue is still the complement of IsFalse,
      and its failure can no longer be mistaken for a failure of IsFalse. */
  lemma CorrectedTruthFailuresDistinguishable(condition: bool, message: string, expectedExpression: string)
    ensures IsTrueCorrected(condition, message, expectedExpression).Ok?
        <==> IsFalse(condition, message, expectedExpression).Fail?
    ensures IsTrueCorrected(false, message, expectedExpression) != IsFalse(true, message, expectedExpression)
  {
  }

  // ---------------------------------------------------------------------
  // Equality

  /** Object.Equals as the guards use it: both null is equal, exactly one
      null is unequal, otherwise the values' own equality decides; which is
      plain equality of the nullable values. */
  lemma NullSafeEqualsCases<T>(a: Option<T>, b: Option<T>)
    ensures a == None && b == None ==> NullSafeEquals(a, b)
    ensures (a == None) != (b == None) ==> !NullSafeEquals(a, b)
    ensures a != None && b != None ==> (NullSafeEquals(a, b) <==> a.value == b.value)
    ensures NullSafeEquals(a, b) <==> a == b
  {
  }

  /** NotEqual fails exactly when AreEqual succeeds on the same pair,
      including the pair of two nulls. */
  lemma EqualityChecksComplement<T>(expected: Option<T>, actual: Option<T>,
                                    m1: string, m2: string, e1: string, e2: string)
    ensures AreEqual(expected, actual, m1, e1, e2).Ok? <==> NotEqual(expected, actual, m2, e1, e2).Fail?
  {
  }

  /** The cases the equality tests exercise. */
  lemma EqualityExamples(message: string, e1: string, e2: string)
    ensures AreEqual(Some(5), Some(5), message, e1, e2).Ok?
    ensures AreEqual(Some(5), Some(6), message, e1, e2).Fail?
    ensures AreEqual<int>(None, None, message, e1, e2).Ok?
    ensures AreEqual(None, Some(0), message, e1, e2).Fail?
    ensures NotEqual(Some(5), Some(6), message, e1, e2).Ok?
    ensures NotEqual(Some(5), Some(5), message, e1, e2).Fail?
    ensures NotEqual(None, Some(0), message, e1, e2).Ok?
    ensures NotEqual<int>(None, None, message, e1, e2).Fail?
  {
  }

  /** Position `k` of a clause is position |Prefix| + k of its failure message. */
  lemma FailureMessageAt(clause: string, message: string, k: nat)
    requires k < |clause|
    ensures FailureMessage(clause, message)[|Prefix| + k] == clause[k]
  {
    assert FailureMessage(clause, message) == Prefix + clause + (". " + message);
  }

  /** Where a comparison clause writes its operator. */
  lemma ComparisonOperatorAt(expectedExpression: string, op: string, actualExpression: string)
    requires |op| > 0
    ensures ComparisonClause(expectedExpression, op, actualExpression)[|"Expected "| + |expectedExpression| + 1] == op[0]
  {
    assert ComparisonClause(expectedExpression, op, actualExpression)
        == ("Expected " + expectedExpression + " ") + op + (" " + actualExpression);
  }

  /** With the same labels and caller message, a failure of AreEqual and a
      failure of NotEqual raise different messages: they differ at the
      operator, "==" against "!=". */
  lemma EqualityFailuresDistinguishable<T>(a: Option<T>, b: Option<T>, c: Option<T>, d: Option<T>,
                                           message: string, e1: string, e2: string)
    requires AreEqual(a, b, message, e1, e2).Fail?
    requires NotEqual(c, d, message, e1, e2).Fail?
    ensures AreEqual(a, b, message, e1, e2).errorMessage != NotEqual(c, d, message, e1, e2).errorMessage
  {
    var k := |"Expected "| + |e1| + 1;
    ComparisonOperatorAt(e1, "==", e2);
    ComparisonOperatorAt(e1, "!=", e2);
    FailureMessageAt(ComparisonClause(e1, "==", e2), message, k);
    FailureMessageAt(ComparisonClause(e1, "!=", e2), message, k);
  }

  // ---------------------------------------------------------------------
  // Range

  /** InRange over int succeeds exactly when minimum <= value <= maximum:
      both ends are inclusive. */
  lemma InRangeIntIffBetween(show: int -> string, value: int, minimum: int, maximum: int, message: string)
    ensures InRange(IntCompareTo, show, value, minimum, maximum, message).Ok?
        <==> minimum <= value <= maximum
  {
  }

  /** The ends of a non-empty range are inside it. */
  lemma InRangeIntBoundaries(show: int -> string, minimum: int, maximum: int, message: string)
    requires minimum <= maximum
    ensures InRange(IntCompareTo, show, minimum, minimum, maximum, message).Ok?
    ensures InRange(IntCompareTo, show, maximum, minimum, maximum, message).Ok?
  {
  }

  /** A value below the minimum or above the maximum fails, and the message
      embeds the value and the range as "[minimum, maximum]". */
  lemma InRangeIntOutside(show: int -> string, value: int, minimum: int, maximum: int, message: string)
    requires value < minimum || maximum < value
    ensures InRange(IntCompareTo, show, value, minimum, maximum, message).Fail?
    ensures Contains(InRange(IntCompareTo, show, value, minimum, maximum, message).errorMessage,
                     "[" + show(minimum) + ", " + show(maximum) + "]")
    ensures Contains(InRange(IntCompareTo, show, value, minimum, maximum, message).errorMessage,
                     show(value))
  {
    var v, range := show(value), Interval(show(minimum), show(maximum));
    var clause := RangeClause(v, show(minimum), show(maximum));
    ContainsSelf(range);
    ContainsRight("Expected " + v + " to be in range ", range, range);
    FailureMessageContains(clause, message, range);
    ContainsSelf(v);
    ContainsRight("Expected ", v, v);
    ContainsLeft("Expected " + v, " to be in range ", v);
    ContainsLeft("Expected " + v + " to be in range ", range, v);
    FailureMessageContains(clause, message, v);
  }

  // ---------------------------------------------------------------------
  // Runtime type

  /** A null object never passes IsType, and the message then names the
      expected type and has empty text after "but found". */
  lemma IsTypeRejectsNull<O, Ty>(rt: Runtime<O, Ty>, target: Ty, message: string)
    ensures IsType(rt, target, None, message).Fail?
    ensures IsType(rt, target, None, message).errorMessage
         == Prefix + "Expected object of type " + rt.typeName(target) + ", but found . " + message
  {
  }

  /** A failed IsType on a non-null object names both the expected type and
      the object's actual runtime type. */
  lemma IsTypeFailureNamesTypes<O, Ty>(rt: Runtime<O, Ty>, target: Ty, obj: O, message: string)
    requires !rt.isInstanceOf(rt.typeOf(obj), target)
    ensures IsType(rt, target, Some(obj), message).Fail?
    ensures Contains(IsType(rt, target, Some(obj), message).errorMessage, rt.typeName(target))
    ensures Contains(IsType(rt, target, Some(obj), message).errorMessage, rt.typeName(rt.typeOf(obj)))
  {
    var expected, found := rt.typeName(target), rt.typeName(rt.typeOf(obj));
    var clause := TypeClause(expected, found);
    ContainsSelf(expected);
    ContainsRight("Expected object of type ", expected, expected);
    ContainsLeft("Expected object of type " + expected, ", but found ", expected);
    ContainsLeft("Expected object of type " + expected + ", but found ", found, expected);
    FailureMessageContains(clause, message, expected);
    ContainsSelf(found);
    ContainsRight("Expected object of type " + expected + ", but found ", found, found);
    FailureMessageContains(clause, message, found);
  }
}
