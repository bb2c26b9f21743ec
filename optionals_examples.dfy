/** Uses of `Option` and `Result` taken from tests/optionals.test.ts and the
    documented laws, stated as client methods and lemmas. */
module OptionalsExamples {
  import opened JsValues
  import opened Types
  import opened Optionals

  /** `some(3).and(none()).and(some(4)).expectOr(22)` is 22
      (optionals.test.ts:89-91). */
  method AndChain() returns (r: JsValue)
    ensures r == Num(22)
  {
    var opt := SomeOf(Lit(Num(3)));
    var opt2 := NoneOf();
    var four := SomeOf(Lit(Num(4)));
    r := opt.And(opt2).And(four).ExpectOr(Lit(Num(22)));
  }

  /** `expectOr` treats a held 0 as absent, where `expect` returns it. */
  method ExpectOrOnZero() returns (viaExpect: Completion, viaExpectOr: JsValue)
    ensures viaExpect == Normal(Num(0))
    ensures viaExpectOr == Num(7)
  {
    var zero := SomeOf(Lit(Num(0)));
    viaExpect := zero.Expect("error");
    viaExpectOr := zero.ExpectOr(Lit(Num(7)));
  }

  /** A first `take` empties the cell, a second returns None
      (optionals.test.ts:131-137). */
  method TakeTwice() returns (first: Option, second: Option)
    ensures first.Holds(Num(3))
    ensures second.IsNone()
  {
    var opt := SomeOf(Lit(Num(3)));
    first := opt.Take();
    second := opt.Take();
  }

  /** `takeIf` empties the cell only when its value passes
      (optionals.test.ts:139-148). */
  method TakeIfExamples() returns (taken: Option, kept: Option, left: JsValue, stayed: JsValue)
    ensures taken.Holds(Num(3)) && kept.IsNone()
    ensures left == Num(0) && stayed == Num(3)
  {
    var opt := SomeOf(Lit(Num(3)));
    var opt3 := SomeOf(Lit(Num(3)));
    taken := opt.TakeIf((v: JsValue) => v.Num? && v.n > 2);
    kept := opt3.TakeIf((v: JsValue) => v.Num? && v.n > 3);
    left := opt.ExpectOr(Lit(Num(0)));
    stayed := opt3.ExpectOr(Lit(Num(0)));
  }

  /** `replace(4)` on Some(3) returns 3 and on None returns 4; both cells
      then hold 4 (optionals.test.ts:150-155). */
  method ReplaceExamples() returns (fromSome: JsValue, fromNone: JsValue, afterSome: JsValue, afterNone: JsValue)
    ensures fromSome == Num(3) && fromNone == Num(4)
    ensures afterSome == Num(4) && afterNone == Num(4)
  {
    var opt := SomeOf(Lit(Num(3)));
    var opt2 := NoneOf();
    fromSome := opt.Replace(Lit(Num(4)));
    fromNone := opt2.Replace(Lit(Num(4)));
    afterSome := opt.ExpectOr(Lit(Num(0)));
    afterNone := opt2.ExpectOr(Lit(Num(0)));
  }

  /** `getOrInsert(4)` on Some(3) returns 3, on None 4
      (optionals.test.ts:126-129). */
  method GetOrInsertExamples() returns (fromSome: JsValue, fromNone: JsValue)
    ensures fromSome == Num(3) && fromNone == Num(4)
  {
    var opt := SomeOf(Lit(Num(3)));
    var opt2 := NoneOf();
    fromSome := opt.GetOrInsert(Lit(Num(4)));
    fromNone := opt2.GetOrInsert(Lit(Num(4)));
  }

  /** `xor` of the four combinations of Some(3) and None
      (optionals.test.ts:108-113). */
  method XorExamples() returns (a: JsValue, b: JsValue, c: JsValue, d: JsValue)
    ensures a == Num(3) && b == Num(3) && c == Num(0) && d == Num(0)
  {
    var opt := SomeOf(Lit(Num(3)));
    var opt2 := NoneOf();
    var x := opt.Xor(opt2);
    a := x.ExpectOr(Lit(Num(0)));
    x := opt2.Xor(opt);
    b := x.ExpectOr(Lit(Num(0)));
    x := opt.Xor(opt);
    c := x.ExpectOr(Lit(Num(0)));
    x := opt2.Xor(opt2);
    d := x.ExpectOr(Lit(Num(0)));
  }

  /** Zipping two Some cells and unzipping the pair gives back the first
      value, but the second comes back as a one-element array: this is the
      head/tail rule of optionals.ts:159-161, not the pairwise result
      optionals.test.ts:177 expects. */
  method ZipThenUnzip(a: JsValue, b: JsValue) returns (first: Option, second: Option)
    ensures first.Holds(a)
    ensures second.Holds(Arr([b]))
  {
    var x := SomeOf(Lit(a));
    var y := SomeOf(Lit(b));
    var zipped := x.Zip(y);
    first, second := zipped.Unzip();
  }

  /** `some([1,2,3,4,5]).unzip()` is `[some(1), some([2,3,4,5])]`, not the
      `[some([1,2,3,4]), some(5)]` of optionals.test.ts:181. */
  method UnzipFive() returns (first: Option, second: Option)
    ensures first.Holds(Num(1))
    ensures second.Holds(Arr([Num(2), Num(3), Num(4), Num(5)]))
  {
    var five := SomeOf(Lit(Arr([Num(1), Num(2), Num(3), Num(4), Num(5)])));
    first, second := five.Unzip();
  }

  /** `unzip` of Some(3) is `[some(3), none()]` and of None `[none(), none()]`
      (optionals.test.ts:179-180). */
  method UnzipNonArray() returns (a: Option, b: Option, c: Option, d: Option)
    ensures a.Holds(Num(3)) && b.IsNone() && c.IsNone() && d.IsNone()
  {
    var three := SomeOf(Lit(Num(3)));
    a, b := three.Unzip();
    var empty := NoneOf();
    c, d := empty.Unzip();
  }

  /** `zipWith` adds the values of Some(3) and Some(3) (optionals.test.ts:167). */
  method ZipWithSum() returns (r: Option)
    ensures r.Holds(Num(6))
  {
    var opt := SomeOf(Lit(Num(3)));
    r := opt.ZipWith(opt, (a: JsValue, b: JsValue) => if a.Num? && b.Num? then Num(a.n + b.n) else Undefined);
  }

  /** The functor laws: mapping the identity gives an equal cell, and mapping
      f then g gives the same cell as mapping their composition. */
  method MapLaws(o: Option, f: JsValue -> JsValue, g: JsValue -> JsValue) returns (same: Option, twice: Option, composed: Option)
    requires o.Valid()
    ensures same.state == o.state && same.value == o.value
    ensures twice.state == composed.state && twice.value == composed.value
  {
    same := o.Map((v: JsValue) => v);
    var once := o.Map(f);
    twice := once.Map(g);
    composed := o.Map((v: JsValue) => g(f(v)));
  }

  /** `mapOr` on Some(3) with `+1` gives 4 and on None the default 10
      (optionals.test.ts:79-82). */
  method MapOrExamples() returns (a: JsValue, b: JsValue)
    ensures a == Num(4) && b == Num(10)
  {
    var opt := SomeOf(Lit(Num(3)));
    var opt2 := NoneOf();
    var inc := (v: JsValue) => if v.Num? then Num(v.n + 1) else Undefined;
    a := opt.MapOr(inc, Lit(Num(0)));
    b := opt2.MapOr(inc, Lit(Num(10)));
  }

  function Inc(v: JsValue): JsValue {
    if v.Num? then Num(v.n + 1) else Undefined
  }

  /** `ok(3).map(x => x + 1)` is `ok(4)`; mapping an Err, or mapping the
      error of an Ok, changes nothing (optionals.test.ts:221-229). */
  lemma ResultMapExamples()
    ensures OkOf(Lit(Num(3))).Map(Inc) == OkOf(Lit(Num(4)))
    ensures ErrOf(Lit(Str("error"))).Map(Inc) == ErrOf(Lit(Str("error")))
    ensures OkOf(Lit(Num(3))).MapErr(Inc) == OkOf(Lit(Num(3)))
  {
  }

  /** `and`/`or` of Results read through `expectOr(0)`
      (optionals.test.ts:265-284). */
  method ResultAndOr() returns (a: JsValue, b: JsValue, c: JsValue, d: JsValue)
    ensures a == Num(4) && b == Num(0) && c == Num(3) && d == Num(4)
  {
    var three := OkOf(Lit(Num(3)));
    var four := OkOf(Lit(Num(4)));
    var failed := ErrOf(Lit(Str("error")));
    a := three.And(four).ExpectOr(Lit(Num(0)));
    b := three.And(failed).ExpectOr(Lit(Num(0)));
    c := three.Or(failed).ExpectOr(Lit(Num(0)));
    d := failed.Or(four).ExpectOr(Lit(Num(0)));
  }

  /** `ok_or` turns Some(3) into `ok(3)` and None into `err('error')`
      (optionals.test.ts:84-87). */
  method OkOrExamples() returns (a: Result, b: Result)
    ensures a == OkOf(Lit(Num(3))) && b == ErrOf(Lit(Str("error")))
  {
    var opt := SomeOf(Lit(Num(3)));
    var opt2 := NoneOf();
    a := opt.OkOr(Lit(Str("error")));
    b := opt2.OkOr(Lit(Str("error")));
  }
}
