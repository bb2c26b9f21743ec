/** The two primitives every other component uses (src/types.ts): a
    parameter given either as a value or as a producer of it, and a
    condition given either as a literal or as a predicate. JavaScript tells
    the two forms apart with `typeof x === "function"`; here each is a closed
    datatype, so the test is the constructor. */
module Types {
  import opened JsValues

  /** `Param<T> = T | (() => T)`. */
  datatype Param<T> = Lit(value: T) | Thunk(produce: () -> T)

  /** `Condition<T> = T | ((value: T) => boolean)`. */
  datatype Condition<!T> = Eq(literal: T) | Pred(test: T -> bool)

  /** `resolveParam`: calls a producer, hands a plain value back unchanged. */
  function ResolveParam<T>(param: Param<T>): (r: T)
    ensures param.Lit? ==> r == param.value
    ensures param.Thunk? ==> r == param.produce()
  {
    match param
    case Lit(v) => v
    case Thunk(f) => f()
  }

  /** `checkCondition`: applies a predicate, or compares a literal with `===`.
      On the value domain of this model `===` is `==` (see README). */
  function CheckCondition<T(==)>(condition: Condition<T>, value: T): (r: bool)
    ensures condition.Eq? ==> (r <==> condition.literal == value)
    ensures condition.Pred? ==> (r <==> condition.test(value))
  {
    match condition
    case Eq(literal) => literal == value
    case Pred(test) => test(value)
  }

  /** The cases of tests/types.test.ts. */
  lemma TypesExamples()
    ensures ResolveParam(Lit(Num(3))) == Num(3)
    ensures ResolveParam(Thunk(() => Num(5))) == Num(5)
    ensures CheckCondition(Eq(Num(3)), Num(3))
    ensures CheckCondition(Pred((v: JsValue) => v == Num(5)), Num(5))
    ensures !CheckCondition(Eq(Num(3)), Num(2))
  {
  }

  /** `Enumerate<N, Acc>`: appends `Acc["length"]` to `Acc` until `Acc` has
      N elements, then yields the union of its elements. */
  function Enumerate(n: nat, acc: seq<nat>): set<nat>
    requires |acc| <= n
    decreases n - |acc|
  {
    if |acc| == n then set i | i in acc else Enumerate(n, acc + [|acc|])
  }

  /** `IntRange<F, T> = Exclude<Enumerate<T>, Enumerate<F>>`. */
  function IntRange(from: nat, to: nat): set<nat> {
    Enumerate(to, []) - Enumerate(from, [])
  }

  /** `U8 = IntRange<0, 256>`. */
  type U8 = n: int | 0 <= n < 256

  /** Started from the accumulator `[0, .., k-1]`, `Enumerate` yields exactly
      the naturals below N. */
  lemma {:induction false} EnumerateBelow(n: nat, acc: seq<nat>)
    requires |acc| <= n
    requires forall i :: 0 <= i < |acc| ==> acc[i] == i
    ensures forall k: nat :: k in Enumerate(n, acc) <==> k < n
    decreases n - |acc|
  {
    if |acc| == n {
      forall k: nat
        ensures k in Enumerate(n, acc) <==> k < n
      {
        if k < n {
          assert acc[k] == k;
        }
      }
    } else {
      var acc' := acc + [|acc|];
      assert forall i :: 0 <= i < |acc'| ==> acc'[i] == i;
      EnumerateBelow(n, acc');
    }
  }

  /** `IntRange<F, T>` holds exactly the integers n with F <= n < T. */
  lemma IntRangeExact(from: nat, to: nat)
    ensures forall k: nat :: k in IntRange(from, to) <==> from <= k < to
  {
    EnumerateBelow(to, []);
    EnumerateBelow(from, []);
  }

  /** `IntRange<0, 256>` is exactly the set of values of the type `U8`. */
  lemma U8IsIntRange()
    ensures (set u: U8 | true :: U8ToNat(u)) == IntRange(0, 256)
  {
    IntRangeExact(0, 256);
    forall k: nat | k in IntRange(0, 256)
      ensures k in (set u: U8 | true :: U8ToNat(u))
    {
      var u: U8 := k as int;
      assert U8ToNat(u) == k;
    }
  }

  /** A `U8` read as a natural number. */
  function U8ToNat(u: U8): nat {
    u as nat
  }
}
