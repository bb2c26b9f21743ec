/** The match engine (src/match.ts).

    `match(v)` creates a matcher over the subject `v`. Each `.case(c1, ...,
    ck, handler)` decides at once whether its handler runs, runs it, and
    returns a callable link: calling it gives the result so far, and it
    carries the subject, that result and the two flags `performCascade` and
    `return_set` into a fresh matcher. `.default(h)` returns a thunk that
    decides and runs `h` only when it is called.

    The specification is a state record (`MatchState`, the four parameters of
    `createMatcher`) and a step function per case, folded over the cases of a
    chain (`Run`). A handler is abstracted as a function from the subject to
    the value it returns and whether it called `cascade()` while it ran. The
    class `Matcher` is the closure itself: `Case` assigns its captured flags
    in place, as the source does, and is proved to agree with `Step`. */
module MatchEngine {
  import opened JsValues
  import opened Types

  /** What a case handler does when it runs. */
  datatype Handled = Handled(result: JsValue, cascaded: bool)

  /** The arguments of one `.case(condition, ...otherConditions, handler)`. */
  datatype Case = Case(
    condition: Condition<JsValue>,
    otherConditions: seq<Condition<JsValue>>,
    handler: JsValue -> Handled)

  /** `createMatcher(value, previousReturn, performCascade, return_set)`. */
  datatype MatchState = MatchState(
    value: JsValue,
    previousReturn: JsValue,
    performCascade: bool,
    returnSet: bool)

  /** The matcher `match(value)` creates: no result yet, not cascading, not
      resolved. */
  function Initial(value: JsValue): (r: MatchState)
    ensures r.value == value
    ensures DefaultRuns(r)
    ensures forall c :: Fires(r, c) <==> CheckCondition(c.condition, value) || AnyMatches(c.otherConditions, value)
  {
    MatchState(value, Undefined, false, false)
  }

  /** `conditions.some((cond) => checkCondition(cond, value))`. */
  predicate AnyMatches(conditions: seq<Condition<JsValue>>, value: JsValue)
    decreases |conditions|
  {
    |conditions| > 0 && (CheckCondition(conditions[0], value) || AnyMatches(conditions[1..], value))
  }

  lemma {:induction false} AnyMatchesExists(conditions: seq<Condition<JsValue>>, value: JsValue)
    ensures AnyMatches(conditions, value) <==>
      exists k :: 0 <= k < |conditions| && CheckCondition(conditions[k], value)
    decreases |conditions|
  {
    if |conditions| > 0 {
      AnyMatchesExists(conditions[1..], value);
      if !CheckCondition(conditions[0], value) && exists k :: 0 <= k < |conditions| && CheckCondition(conditions[k], value) {
        var k :| 0 <= k < |conditions| && CheckCondition(conditions[k], value);
        assert conditions[1..][k - 1] == conditions[k];
      }
    }
  }

  /** The guard of match.ts:61-66: the handler runs when cascading, when the
      first condition matches, or, while nothing has run yet, when one of the
      other conditions does. */
  predicate Fires(s: MatchState, c: Case)
    ensures s.performCascade || CheckCondition(c.condition, s.value) ==> Fires(s, c)
    ensures s.returnSet && !s.performCascade ==> (Fires(s, c) <==> CheckCondition(c.condition, s.value))
  {
    s.performCascade
    || CheckCondition(c.condition, s.value)
    || (AnyMatches(c.otherConditions, s.value) && !s.returnSet)
  }

  /** One `.case` call: the state the fresh matcher of the returned link is
      created with. */
  function Step(s: MatchState, c: Case): (r: MatchState)
    ensures r.value == s.value
    ensures Fires(s, c) ==> r.returnSet && r.previousReturn == c.handler(s.value).result
    ensures Fires(s, c) ==> (r.performCascade <==> s.performCascade || c.handler(s.value).cascaded)
    ensures !Fires(s, c) ==> r == s
  {
    if Fires(s, c) then
      var h := c.handler(s.value);
      MatchState(s.value, h.result, s.performCascade || h.cascaded, true)
    else
      s
  }

  /** A linear chain `.case(..).case(..)...` started from `s`. */
  function Run(s: MatchState, cases: seq<Case>): (r: MatchState)
    ensures s.returnSet ==> r.returnSet
    ensures s.performCascade ==> r.performCascade
    decreases |cases|
  {
    if |cases| == 0 then s else Step(Run(s, cases[..|cases| - 1]), cases[|cases| - 1])
  }

  /** The positions, in call order, of the cases whose handler runs. */
  function Fired(s: MatchState, cases: seq<Case>): (r: seq<nat>)
    ensures forall k :: 0 <= k < |r| ==> r[k] < |cases|
    decreases |cases|
  {
    if |cases| == 0 then []
    else
      var before := cases[..|cases| - 1];
      Fired(s, before) + if Fires(Run(s, before), cases[|cases| - 1]) then [|cases| - 1] else []
  }

  /** The handler of case i runs. */
  predicate FiredAt(s: MatchState, cases: seq<Case>, i: nat)
    requires i < |cases|
  {
    Fires(Run(s, cases[..i]), cases[i])
  }

  /** The guard of the `.default` thunk (match.ts:50). */
  predicate DefaultRuns(s: MatchState) {
    s.performCascade || !s.returnSet
  }

  /** What the `.default(handler)` thunk returns when called on a matcher in
      state `s`. */
  function DefaultResult(s: MatchState, handler: JsValue -> JsValue): JsValue {
    if DefaultRuns(s) then handler(s.value) else s.previousReturn
  }

  /** The conditions `checkCondition` is called on, in order, while the guard
      of match.ts:61-66 is evaluated: `||` and `Array.prototype.some` stop at
      the first operand that decides. */
  function ConditionsChecked(s: MatchState, c: Case): (r: seq<Condition<JsValue>>)
    ensures s.performCascade ==> r == []
    ensures !s.performCascade ==> |r| > 0 && r[0] == c.condition
    ensures |r| <= 1 + |c.otherConditions|
  {
    if s.performCascade then []
    else if CheckCondition(c.condition, s.value) then [c.condition]
    else [c.condition] + SomeChecked(c.otherConditions, s.value)
  }

  /** The elements `conditions.some(...)` tests: up to the first match. */
  function SomeChecked(conditions: seq<Condition<JsValue>>, value: JsValue): (r: seq<Condition<JsValue>>)
    ensures |r| <= |conditions| && r == conditions[..|r|]
    decreases |conditions|
  {
    if |conditions| == 0 then []
    else if CheckCondition(conditions[0], value) then [conditions[0]]
    else [conditions[0]] + SomeChecked(conditions[1..], value)
  }

  // ---------------------------------------------------------------------
  // Properties of a single step

  /** `some` checks the other conditions until one matches, and its answer is
      the answer of the last condition it checked. */
  lemma {:induction false} SomeCheckedDecides(conditions: seq<Condition<JsValue>>, value: JsValue)
    ensures var r := SomeChecked(conditions, value);
      AnyMatches(conditions, value) <==> (|r| > 0 && CheckCondition(r[|r| - 1], value))
    ensures var r := SomeChecked(conditions, value);
      forall k :: 0 <= k < |r| - 1 ==> !CheckCondition(r[k], value)
    decreases |conditions|
  {
    if |conditions| > 0 && !CheckCondition(conditions[0], value) {
      SomeCheckedDecides(conditions[1..], value);
      var tail := SomeChecked(conditions[1..], value);
      assert SomeChecked(conditions, value) == [conditions[0]] + tail;
    }
  }

  /** Whether the handler runs is decided by the conditions actually checked:
      none while cascading, and the other conditions are still checked once a
      handler has run, though their answer is then ignored. */
  lemma FiresByConditionsChecked(s: MatchState, c: Case)
    ensures var r := ConditionsChecked(s, c);
      Fires(s, c) <==>
        s.performCascade
        || CheckCondition(c.condition, s.value)
        || (!s.returnSet && CheckCondition(r[|r| - 1], s.value))
  {
    SomeCheckedDecides(c.otherConditions, s.value);
  }

  // ---------------------------------------------------------------------
  // Properties of a chain

  lemma RunPrefix(s: MatchState, cases: seq<Case>, i: nat)
    requires i < |cases|
    ensures Run(s, cases[..i + 1]) == Step(Run(s, cases[..i]), cases[i])
  {
    assert cases[..i + 1][..i] == cases[..i];
  }

  lemma RunAll(s: MatchState, cases: seq<Case>)
    ensures Run(s, cases[..|cases|]) == Run(s, cases)
    ensures Fired(s, cases[..|cases|]) == Fired(s, cases)
  {
    assert cases[..|cases|] == cases;
  }

  /** The subject never changes along a chain. */
  lemma {:induction false} RunKeepsSubject(s: MatchState, cases: seq<Case>)
    ensures Run(s, cases).value == s.value
    decreases |cases|
  {
    if |cases| > 0 {
      RunKeepsSubject(s, cases[..|cases| - 1]);
    }
  }

  /** Once cascading, every later case handler runs, the flag stays set, and
      the default handler runs too. */
  lemma {:induction false} CascadeIsSticky(s: MatchState, cases: seq<Case>, i: nat)
    requires i <= |cases|
    requires Run(s, cases[..i]).performCascade
    ensures forall j :: i <= j < |cases| ==> FiredAt(s, cases, j)
    ensures Run(s, cases).performCascade
    ensures DefaultRuns(Run(s, cases))
    decreases |cases| - i
  {
    if i == |cases| {
      RunAll(s, cases);
    } else {
      RunPrefix(s, cases, i);
      CascadeIsSticky(s, cases, i + 1);
    }
  }

  /** The recursive `Fired` lists exactly the positions whose handler runs,
      in increasing order. */
  lemma {:induction false} FiredIsExact(s: MatchState, cases: seq<Case>)
    ensures forall k, l :: 0 <= k < l < |Fired(s, cases)| ==> Fired(s, cases)[k] < Fired(s, cases)[l]
    ensures forall i :: 0 <= i < |cases| ==> (i in Fired(s, cases) <==> FiredAt(s, cases, i))
    decreases |cases|
  {
    if |cases| > 0 {
      var n := |cases| - 1;
      var before := cases[..n];
      FiredIsExact(s, before);
      forall i | 0 <= i < n
        ensures FiredAt(s, before, i) <==> FiredAt(s, cases, i)
      {
        assert before[..i] == cases[..i];
        assert before[i] == cases[i];
      }
    }
  }

  /** A matcher is resolved exactly when it was already, or some handler of
      the chain ran. */
  lemma {:induction false} ResolvedIffSomeFired(s: MatchState, cases: seq<Case>)
    ensures Run(s, cases).returnSet <==> s.returnSet || Fired(s, cases) != []
    decreases |cases|
  {
    if |cases| > 0 {
      ResolvedIffSomeFired(s, cases[..|cases| - 1]);
    }
  }

  /** A case whose first condition matches the subject runs its handler,
      wherever it stands in the chain and whatever ran before it. */
  lemma FirstConditionAlwaysCounts(s: MatchState, cases: seq<Case>, i: nat)
    requires i < |cases| && CheckCondition(cases[i].condition, s.value)
    ensures FiredAt(s, cases, i)
  {
    RunKeepsSubject(s, cases[..i]);
  }

  /** Once an earlier handler of the chain has run, and none cascaded, a case
      whose first condition fails does not run, whatever its other conditions
      say. */
  lemma OtherConditionsIgnoredOnceResolved(s: MatchState, cases: seq<Case>, i: nat)
    requires i < |cases|
    requires Fired(s, cases[..i]) != [] && !Run(s, cases[..i]).performCascade
    requires !CheckCondition(cases[i].condition, s.value)
    ensures !FiredAt(s, cases, i)
  {
    RunKeepsSubject(s, cases[..i]);
    ResolvedIffSomeFired(s, cases[..i]);
  }

  /** The result a link returns is that of the last handler that ran, or the
      starting result when none ran: a case that does not fire carries the
      previous result over unchanged. */
  lemma {:induction false} ResultOfLastFired(s: MatchState, cases: seq<Case>)
    ensures var fired := Fired(s, cases);
      Run(s, cases).previousReturn ==
        if fired == [] then s.previousReturn
        else cases[fired[|fired| - 1]].handler(s.value).result
    decreases |cases|
  {
    if |cases| > 0 {
      var n := |cases| - 1;
      var before := cases[..n];
      ResultOfLastFired(s, before);
      RunKeepsSubject(s, before);
      FiredIsExact(s, before);
      var fb := Fired(s, before);
      if fb != [] {
        assert fb[|fb| - 1] < n;
        assert cases[fb[|fb| - 1]] == before[fb[|fb| - 1]];
      }
    }
  }

  /** A chain cascades exactly when it started cascading or a handler that
      ran called `cascade()`. */
  lemma {:induction false} CascadingIffHandlerCascaded(s: MatchState, cases: seq<Case>)
    ensures Run(s, cases).performCascade <==>
      s.performCascade || exists i :: i in Fired(s, cases) && i < |cases| && cases[i].handler(s.value).cascaded
    decreases |cases|
  {
    if |cases| > 0 {
      var n := |cases| - 1;
      var before := cases[..n];
      CascadingIffHandlerCascaded(s, before);
      RunKeepsSubject(s, before);
      FiredIsExact(s, before);
      var fb := Fired(s, before);
      forall i | i in fb
        ensures i < n && cases[i] == before[i]
      {
      }
    }
  }

  /** From `match(v)`, the default handler runs exactly when some handler
      cascaded or no case handler ran. */
  lemma DefaultRunsIff(value: JsValue, cases: seq<Case>)
    ensures var s := Run(Initial(value), cases);
      DefaultRuns(s) <==> s.performCascade || Fired(Initial(value), cases) == []
  {
    ResolvedIffSomeFired(Initial(value), cases);
  }

  // ---------------------------------------------------------------------
  // The closure

  /** The matcher `createMatcher` returns, with the variables its closures
      capture. `value` and `previousReturn` are never assigned; `case`
      assigns `returnSet` and the `cascade` callback `performCascade`. */
  class Matcher {
    const value: JsValue
    const previousReturn: JsValue
    var performCascade: bool
    var returnSet: bool

    function State(): MatchState
      reads this
    {
      MatchState(value, previousReturn, performCascade, returnSet)
    }

    /** `createMatcher(value, previousReturn, performCascade, return_set)`. */
    constructor (value: JsValue, previousReturn: JsValue, performCascade: bool, returnSet: bool)
      ensures State() == MatchState(value, previousReturn, performCascade, returnSet)
    {
      this.value := value;
      this.previousReturn := previousReturn;
      this.performCascade := performCascade;
      this.returnSet := returnSet;
    }

    /** `.case(condition, ...otherConditions, handler)`: runs the handler now
        when the guard holds, sets this matcher's own flags in place, and
        returns the link; the link's result is its `previousReturn`. */
    method Case(c: Case) returns (link: Matcher)
      modifies this
      ensures fresh(link)
      ensures link.State() == Step(old(State()), c)
      ensures performCascade == link.performCascade && returnSet == link.returnSet
    {
      var returnValue := previousReturn;
      if performCascade
        || CheckCondition(c.condition, value)
        || (AnyMatches(c.otherConditions, value) && !returnSet)
      {
        returnSet := true;
        var h := c.handler(value);
        if h.cascaded {
          performCascade := true;
        }
        returnValue := h.result;
      }
      link := new Matcher(value, returnValue, performCascade, returnSet);
    }

    /** `.default(handler)`: nothing runs yet; the thunk reads this matcher's
        flags when it is called. */
    function Default(handler: JsValue -> JsValue): (thunk: DefaultThunk)
      ensures thunk.matcher == this && thunk.handler == handler
    {
      DefaultThunk(this, handler)
    }
  }

  /** The thunk `.default(handler)` returns. */
  datatype DefaultThunk = DefaultThunk(matcher: Matcher, handler: JsValue -> JsValue) {
    /** Calling the thunk: runs the handler on the subject when cascading or
        when no case handler ran, otherwise returns the carried result. */
    function Call(): (r: JsValue)
      reads matcher
      ensures r == DefaultResult(matcher.State(), handler)
      ensures !DefaultRuns(matcher.State()) ==> r == matcher.previousReturn
    {
      if matcher.performCascade || !matcher.returnSet then handler(matcher.value) else matcher.previousReturn
    }
  }

  /** `match(value)`. */
  method Match(value: JsValue) returns (m: Matcher)
    ensures fresh(m) && m.State() == Initial(value)
  {
    m := new Matcher(value, Undefined, false, false);
  }
}
