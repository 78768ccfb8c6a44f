# Requires: a verified model of the guard engine

Requires is a C# precondition library. Each `Require.*` guard checks one
condition. When the condition holds, the guard returns and does nothing else.
When it fails, the guard throws a `RequireException`. The exception's message
is `"Requirement failed. " + <clause> + ". " + <caller message>`. The clause
depends on the guard. The caller's message is appended unchanged.

This project models the guards as Dafny functions that return an `Outcome`:
`Ok` when the guard returns, and `Fail(errorMessage)` when it would throw.
`ThrowHelper.Throw` builds the failure; every guard raises through it.
In the model:

- a nullable value is an `Option`, with `None` standing for null;
- the expression labels that C# fills in through `CallerArgumentExpression`
  are ordinary string parameters;
- `Equals(a, b)` is `NullSafeEquals`, which uses the element type's `==`;
- `CompareTo` and `ToString` are the parameters `compareTo` and `show` of
  `InRange`, and `IntCompareTo` is the instance for `int`;
- `obj is T`, `GetType()` and the printed type name are the three fields of
  a `Runtime` value passed to `IsType`;
- both `ApproxEqual` overloads (float and double) are one function that takes
  the tolerance test as a parameter `approx`.

Modules:

- `Wrappers` holds `Option` and `Outcome`.
- `Strings` holds the prefix, suffix and substring predicates used to state
  the message layout.
- `ThrowHelper` is the single failure constructor.
- `Require` holds the guards and their clause builders.
- `RequireLaws` holds the lemmas: complements between guards, the inclusive
  range, null-safe equality and the message layout.

Two details of the messages:

- A failed `IsType` on a null object prints empty text after "but found",
  because `obj?.GetType()` interpolates as empty text
  (Requires/Requires.cs:160).
- `IsTrue` and `IsFalse` both print "to evaluate to False"
  (Requires/Requires.cs:66, 79). That is right for `IsFalse` and wrong for
  `IsTrue`, which expects True. The model keeps `IsTrue` as written; see
  "## Findings".

## Model

| member | source | states |
|---|---|---|
| `ThrowHelper.Throw` | Requires/Requires.cs:25-27 | raising yields a failure that carries exactly the given message; each guard's failure branch calls it (a fact about the guard bodies, not part of this contract) |
| `Require.FailureMessage` | Requires/Requires.cs:40 | a failure message starts with "Requirement failed. ", then the clause and ". ", and ends with ". " followed by the caller message; its length is exactly the sum of those parts (the same layout as lines 53, 66, 79, 94, 109, 124, 139, 149 and 160) |
| `Require.IsNull` | Requires/Requires.cs:33-42 | succeeds iff the value is null; otherwise fails with "Expected (expr) to be null" as the clause |
| `Require.IsNotNull` | Requires/Requires.cs:46-55 | succeeds iff the value is non-null; otherwise fails with "Expected (expr) to be non-null" as the clause |
| `Require.IsTrue` | Requires/Requires.cs:59-68 | succeeds iff the condition holds; as written, fails with the clause "Expected (expr) to evaluate to False" |
| `Require.IsTrueCorrected` | Requires/Requires.cs:59-68 | IsTrue with the clause it evidently means: succeeds iff the condition holds, fails with "to evaluate to True" |
| `Require.IsFalse` | Requires/Requires.cs:72-81 | succeeds iff the condition is false; otherwise fails with "Expected (expr) to evaluate to False" as the clause |
| `Require.NullSafeEquals` | Requires/Requires.cs:90 | the static Object.Equals that AreEqual and NotEqual call (also line 105) agrees exactly with equality of the nullable values; its three null cases are stated by `RequireLaws.NullSafeEqualsCases` |
| `Require.AreEqual` | Requires/Requires.cs:84-96 | succeeds iff the two nullable values are equal; otherwise fails with "Expected e1 == e2" as the clause |
| `Require.NotEqual` | Requires/Requires.cs:99-111 | succeeds iff the two nullable values differ; otherwise fails with "Expected e1 != e2" as the clause |
| `Require.ApproxEqual` | Requires/Requires.cs:114-141 | succeeds iff the approximate-equality test holds; otherwise fails with "Expected e1 ~= e2" as the clause |
| `Require.IntCompareTo` | Requires/Requires.cs:145 | the int CompareTo returns -1, 0 or 1, and its sign tells whether a is below, equal to or above b |
| `Require.InRange` | Requires/Requires.cs:144-151 | succeeds iff value compares at or above minimum and at or below maximum; otherwise fails with "Expected v to be in range [lo, hi]" built from the shown values |
| `Require.FoundTypeName` | Requires/Requires.cs:160 | `obj?.GetType()` as interpolated: empty text for a null object, the name of its runtime type otherwise |
| `Require.IsType` | Requires/Requires.cs:154-162 | succeeds iff the object is non-null and its runtime type is an instance of the target; otherwise fails naming the target type and the found type (empty text for null) |
| `RequireLaws.FailureMessageLayout` | Tests/Tests.cs:193-194 | every failure message starts with the fixed prefix and contains the caller message verbatim, as the custom-message tests check (also Tests/Tests.cs:55-56, 74-75, 217-218) |
| `RequireLaws.FailureMessageContains` | Requires/Requires.cs:149-160 | anything that occurs in a guard's clause, such as the interpolated values and type names, occurs in its failure message |
| `RequireLaws.FailureMessageMentionsClause` | Requires/Requires.cs:94 | the guard-specific clause occurs in the failure message |
| `RequireLaws.NullChecksComplement` | Requires/Requires.cs:36-54 | on the same value, IsNull succeeds exactly when IsNotNull fails |
| `RequireLaws.TruthChecksComplement` | Requires/Requires.cs:62-80 | on the same condition, IsTrue succeeds exactly when IsFalse fails |
| `RequireLaws.TruthFailuresIndistinguishable` | Requires/Requires.cs:66-79 | as written, a failed IsTrue and a failed IsFalse with the same label and message raise the identical failure |
| `RequireLaws.IsTrueMessageDiffersFromIntended` | Requires/Requires.cs:66 | on every failing input, the message IsTrue raises differs from the corrected one |
| `RequireLaws.CorrectedTruthFailuresDistinguishable` | Requires/Requires.cs:59-81 | the corrected IsTrue is still the complement of IsFalse, and its failure differs from IsFalse's |
| `RequireLaws.NullSafeEqualsCases` | Requires/Requires.cs:90 | two nulls are equal, exactly one null is unequal, two present values are compared by value; this is plain equality of nullable values |
| `RequireLaws.EqualityChecksComplement` | Requires/Requires.cs:90-105 | on the same pair, AreEqual succeeds exactly when NotEqual fails, including null/null |
| `RequireLaws.EqualityExamples` | Tests/Tests.cs:81-127 | 5/5 passes AreEqual and fails NotEqual; 5/6 and null/non-null fail AreEqual and pass NotEqual (these come from the tests); null/null passes AreEqual and fails NotEqual, which follows from Object.Equals at Requires/Requires.cs:90 and is not among the tests |
| `RequireLaws.EqualityFailuresDistinguishable` | Requires/Requires.cs:94-109 | with the same labels and message, an AreEqual failure and a NotEqual failure raise different messages |
| `RequireLaws.InRangeIntIffBetween` | Requires/Requires.cs:145 | over int, InRange succeeds iff minimum <= value <= maximum |
| `RequireLaws.InRangeIntBoundaries` | Tests/Tests.cs:181-189 | for a non-empty range, the minimum and the maximum themselves pass |
| `RequireLaws.InRangeIntOutside` | Requires/Requires.cs:145-149 | a value below the minimum or above the maximum fails, and the message contains the shown value and "[min, max]" |
| `RequireLaws.IsTypeRejectsNull` | Requires/Requires.cs:155-160 | a null object always fails IsType; the message names the target type and has empty text after "but found" |
| `RequireLaws.IsTypeFailureNamesTypes` | Requires/Requires.cs:159-160 | a failed IsType on a non-null object names both the target type and the object's runtime type |

## Findings

| source | as written | input that shows it | evidently intended | confidence | as-written member | corrected member |
|---|---|---|---|---|---|---|
| Requires/Requires.cs:66 | IsTrue's failure clause reads "to evaluate to False", the same as IsFalse's | `IsTrue(false, "", "x")` raises "Requirement failed. Expected (x) to evaluate to False. " | "Expected (x) to evaluate to True." | high; not executed | `Require.IsTrue`, with `RequireLaws.TruthFailuresIndistinguishable` and `RequireLaws.IsTrueMessageDiffersFromIntended` | `Require.IsTrueCorrected`, with `RequireLaws.CorrectedTruthFailuresDistinguishable` |

## Left out

- `Util.IsApproxEqual` (float and double) is IEEE floating-point code. It has an exact-equality fast path for infinities, NaN behaviour and width-specific rounding, none of which is faithful over reals. `ApproxEqual` takes the test as the parameter `approx` instead.
- `Require.ApproxEqual`: one function stands for both overloads. The float and double versions differ only in the `approx` they pass.
- `RequireException` constructors and its `Serializable` attribute: a failure is the value `Fail(errorMessage)`. The inner-exception constructor is never used by a guard.
- Tooling attributes (`DoesNotReturn`, `StackTraceHidden`, `DebuggerHidden`, `MethodImpl`, `ContractAnnotation`, `AssertionMethod`, `DoesNotReturnIf`): they do not change behaviour.
- `CallerArgumentExpression` capture is a compiler feature. The labels are explicit parameters.
- `ToString`, `typeof(T)` and `GetType()` formatting: these are the abstract `show` and `Runtime.typeName`. CLR type names are not reproduced.
- `Require.AreEqual`, `Require.NotEqual`: both values share one element type with Dafny's `==`. C#'s `AreEqual<T, U>` can compare values of two different types (boxed `5` against `5L` is unequal). It can also run a user-overridden `Equals`, which may not be an equivalence, and `Object.Equals` checks reference identity first. None of this is modelled.
- `Require.InRange`: a null `value` (a `NullReferenceException` on `CompareTo`) and a `CompareTo` that is not a total order are not modelled. The `int` lemmas use the int ordering.
- A `null` caller message or expression label (C# interpolation prints it as empty text) is represented by `""`; the model's string parameters cannot be null.
- Exceptions thrown by user code inside `Equals`, `CompareTo` or `ToString` are not modelled.
- Tests/Tests.cs is an NUnit harness. It is cited only as evidence for properties.
