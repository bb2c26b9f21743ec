/** The chains of tests/match.test.ts, evaluated in the model. */
module MatchExamples {
  import opened JsValues
  import opened Types
  import opened MatchEngine

  function Times2(v: JsValue): JsValue {
    if v.Num? then Num(2 * v.n) else Undefined
  }

  function Plus2(v: JsValue): JsValue {
    if v.Num? then Num(v.n + 2) else Undefined
  }


  /** match.test.ts:11-23 */
  function BasicCases(): seq<Case> {
    [ Case(Eq(Num(1)), [], (v: JsValue) => Handled(Times2(v), false)),
      Case(Eq(Num(3)), [], (v: JsValue) => Handled(Times2(v), false)),
      Case(Eq(Num(2)), [], (v: JsValue) => Handled(Plus2(v), false)),
      Case(Eq(Num(4)), [], (v: JsValue) => Handled(Plus2(v), false)) ]
  }

  /** match.test.ts:47-53 */
  function MultiConditionCases(): seq<Case> {
    [ Case(Eq(Num(1)), [Eq(Num(3))], (v: JsValue) => Handled(Times2(v), false)),
      Case(Eq(Num(2)), [Eq(Num(4))], (v: JsValue) => Handled(Plus2(v), false)) ]
  }

  function IsOdd(v: JsValue): bool {
    v.Num? && v.n % 2 != 0
  }

  /** match.test.ts:64-76 */
  function PredicateCases(): seq<Case> {
    [ Case(Pred(IsOdd), [], (v: JsValue) => Handled(Times2(v), false)),
      Case(Pred((v: JsValue) => !IsOdd(v)), [], (v: JsValue) => Handled(Plus2(v), false)) ]
  }

  /** match.test.ts:33-36, without the default */
  function DefaultTestCases(): seq<Case> {
    [ Case(Eq(Num(2)), [], (v: JsValue) => Handled(v, false)),
      Case(Eq(Num(3)), [], (v: JsValue) => Handled(v, false)) ]
  }

  /** match.test.ts:87-102: cases 1 to 3 cascade, case 4 does not. */
  function CascadeCases(): seq<Case> {
    [ Case(Eq(Num(1)), [], (v: JsValue) => Handled(Undefined, true)),
      Case(Eq(Num(2)), [], (v: JsValue) => Handled(Undefined, true)),
      Case(Eq(Num(3)), [], (v: JsValue) => Handled(Undefined, true)),
      Case(Eq(Num(4)), [], (v: JsValue) => Handled(Undefined, false)) ]
  }

  /** match.test.ts:106-122: only case 3 cascades, and a default follows. */
  function CascadeWithDefaultCases(): seq<Case> {
    [ Case(Eq(Num(1)), [], (v: JsValue) => Handled(Undefined, false)),
      Case(Eq(Num(2)), [], (v: JsValue) => Handled(Undefined, false)),
      Case(Eq(Num(3)), [], (v: JsValue) => Handled(Undefined, true)),
      Case(Eq(Num(4)), [], (v: JsValue) => Handled(Undefined, false)) ]
  }

  /** How many handlers a chain runs, the default's included when present. */
  function HandlerCalls(value: JsValue, cases: seq<Case>, withDefault: bool): nat {
    var s := Run(Initial(value), cases);
    |Fired(Initial(value), cases)| + if withDefault && DefaultRuns(s) then 1 else 0
  }

  function ChainResult(value: JsValue, cases: seq<Case>): JsValue {
    Run(Initial(value), cases).previousReturn
  }

  lemma RunTwo(s: MatchState, a: Case, b: Case)
    ensures Run(s, [a, b]) == Step(Step(s, a), b)
    ensures Fired(s, [a, b]) ==
      (if Fires(s, a) then [0] else []) + (if Fires(Step(s, a), b) then [1] else [])
  {
    assert [a, b][..1] == [a];
    assert [a][..0] == [];
    assert Run(s, [a]) == Step(Run(s, []), a);
    assert Fired(s, [a]) == Fired(s, []) + if Fires(Run(s, []), a) then [0] else [];
  }

  lemma RunFour(s: MatchState, a: Case, b: Case, c: Case, d: Case)
    ensures Run(s, [a, b, c, d]) == Step(Step(Step(Step(s, a), b), c), d)
    ensures var s1 := Step(s, a); var s2 := Step(s1, b); var s3 := Step(s2, c);
      |Fired(s, [a, b, c, d])| ==
        (if Fires(s, a) then 1 else 0) + (if Fires(s1, b) then 1 else 0)
        + (if Fires(s2, c) then 1 else 0) + (if Fires(s3, d) then 1 else 0)
  {
    assert [a, b, c, d][..3] == [a, b, c];
    assert [a, b, c][..2] == [a, b];
    RunTwo(s, a, b);
    assert Run(s, [a, b, c]) == Step(Run(s, [a, b]), c);
    assert Fired(s, [a, b, c]) == Fired(s, [a, b]) + if Fires(Run(s, [a, b]), c) then [2] else [];
  }

  /** Inputs 1..4 yield 2, 4, 6, 6: for 4 the cases 1 and 3 do not run and
      the fourth case's result replaces nothing. */
  lemma BasicMatch()
    ensures ChainResult(Num(1), BasicCases()) == Num(2)
    ensures ChainResult(Num(2), BasicCases()) == Num(4)
    ensures ChainResult(Num(3), BasicCases()) == Num(6)
    ensures ChainResult(Num(4), BasicCases()) == Num(6)
  {
    var cs := BasicCases();
    forall n | 1 <= n <= 4 {
      RunFour(Initial(Num(n)), cs[0], cs[1], cs[2], cs[3]);
    }
  }

  lemma MultiConditionMatch()
    ensures ChainResult(Num(1), MultiConditionCases()) == Num(2)
    ensures ChainResult(Num(2), MultiConditionCases()) == Num(4)
    ensures ChainResult(Num(3), MultiConditionCases()) == Num(6)
    ensures ChainResult(Num(4), MultiConditionCases()) == Num(6)
  {
    var cs := MultiConditionCases();
    forall n | 1 <= n <= 5 {
      RunTwo(Initial(Num(n)), cs[0], cs[1]);
    }
  }

  lemma PredicateMatch()
    ensures ChainResult(Num(1), PredicateCases()) == Num(2)
    ensures ChainResult(Num(2), PredicateCases()) == Num(4)
    ensures ChainResult(Num(3), PredicateCases()) == Num(6)
    ensures ChainResult(Num(4), PredicateCases()) == Num(6)
  {
    var cs := PredicateCases();
    forall n | 1 <= n <= 5 {
      RunTwo(Initial(Num(n)), cs[0], cs[1]);
    }
  }

  /** `.default(() => 0)` gives 0 for 1, 4 and 5, and the case result for 2
      and 3. */
  lemma DefaultMatch()
    ensures forall n :: 1 <= n <= 5 ==>
      DefaultResult(Run(Initial(Num(n)), DefaultTestCases()), (v: JsValue) => Num(0))
        == if n == 2 || n == 3 then Num(n) else Num(0)
  {
    var cs := DefaultTestCases();
    forall n | 1 <= n <= 5 {
      RunTwo(Initial(Num(n)), cs[0], cs[1]);
    }
  }

  /** The first chain of match.test.ts:81-103: a cascade falls through to
      every later case, so the inputs 1..4 run 4, 3, 2 and 1 handlers. */
  lemma CascadeFallsThrough()
    ensures HandlerCalls(Num(1), CascadeCases(), false) == 4
    ensures HandlerCalls(Num(2), CascadeCases(), false) == 3
    ensures HandlerCalls(Num(3), CascadeCases(), false) == 2
    ensures HandlerCalls(Num(4), CascadeCases(), false) == 1
  {
    var cs := CascadeCases();
    RunFour(Initial(Num(1)), cs[0], cs[1], cs[2], cs[3]);
    RunFour(Initial(Num(2)), cs[0], cs[1], cs[2], cs[3]);
    RunFour(Initial(Num(3)), cs[0], cs[1], cs[2], cs[3]);
    RunFour(Initial(Num(4)), cs[0], cs[1], cs[2], cs[3]);
  }

  /** The second chain of match.test.ts:105-123: only the input 3 cascades,
      through case 4 into the default; 1 + 1 + 3 + 1 handlers. */
  lemma CascadeIntoDefault()
    ensures HandlerCalls(Num(1), CascadeWithDefaultCases(), true) == 1
    ensures HandlerCalls(Num(2), CascadeWithDefaultCases(), true) == 1
    ensures HandlerCalls(Num(3), CascadeWithDefaultCases(), true) == 3
    ensures HandlerCalls(Num(4), CascadeWithDefaultCases(), true) == 1
  {
    var ds := CascadeWithDefaultCases();
    RunFour(Initial(Num(1)), ds[0], ds[1], ds[2], ds[3]);
    RunFour(Initial(Num(2)), ds[0], ds[1], ds[2], ds[3]);
    RunFour(Initial(Num(3)), ds[0], ds[1], ds[2], ds[3]);
    RunFour(Initial(Num(4)), ds[0], ds[1], ds[2], ds[3]);
  }

  /** Both chains together: the 16 calls match.test.ts:125 expects. */
  lemma CascadeCount()
    ensures HandlerCalls(Num(1), CascadeCases(), false) + HandlerCalls(Num(2), CascadeCases(), false)
      + HandlerCalls(Num(3), CascadeCases(), false) + HandlerCalls(Num(4), CascadeCases(), false)
      + HandlerCalls(Num(1), CascadeWithDefaultCases(), true) + HandlerCalls(Num(2), CascadeWithDefaultCases(), true)
      + HandlerCalls(Num(3), CascadeWithDefaultCases(), true) + HandlerCalls(Num(4), CascadeWithDefaultCases(), true)
      == 16
  {
    CascadeFallsThrough();
    CascadeIntoDefault();
  }

  /** The chain of match.test.ts:11-23 driven through the matcher objects,
      one `.case` call at a time. */
  method BasicChain(input: int) returns (r: JsValue)
    requires 1 <= input <= 4
    ensures r == Num(if input == 4 then 6 else 2 * input)
  {
    var cs := BasicCases();
    var m := Match(Num(input));
    var l1 := m.Case(cs[0]);
    var l2 := l1.Case(cs[1]);
    var l3 := l2.Case(cs[2]);
    var l4 := l3.Case(cs[3]);
    r := l4.previousReturn;
  }

  /** Reusing a matcher: a default attached to `match(1)` before `.case` is
      called on that same matcher reads the flag the case set in place, so
      its handler does not run, and it returns that matcher's own result,
      `undefined`, not the case's. */
  method DefaultSeesLaterCase() returns (r: JsValue)
    ensures r == Undefined
  {
    var m := Match(Num(1));
    var thunk := m.Default((v: JsValue) => Num(0));
    var link := m.Case(Case(Eq(Num(1)), [], (v: JsValue) => Handled(Num(7), false)));
    r := thunk.Call();
  }
}
