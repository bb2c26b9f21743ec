/** `Option` and `Result` (src/optionals.ts).

    An `Option` is a mutable cell: `insert`, `getOrInsert`, `take`, `takeIf`
    and `replace` assign its two fields in place, and several combinators hand
    back the receiver or the argument object itself rather than a copy, so it
    is a class here and object identity is part of every contract. A `Result`
    is written once, by its constructor, and never changed, so it is a
    datatype. */
module Optionals {
  import opened JsValues
  import opened Types

  /** `enum OptionType`. */
  datatype OptionType = SomeType | NoneType

  /** `enum ResultType`. */
  datatype ResultType = OkType | ErrType

  /** How a call that may throw completes: normally with a value, or by
      throwing a plain `Error` that carries a message. */
  datatype Completion = Normal(value: JsValue) | Throw(message: string)

  class Option {
    var state: OptionType
    var value: JsValue

    /** The object invariant: a None cell holds `undefined`. */
    ghost predicate Valid()
      reads this
    {
      state == NoneType ==> value == Undefined
    }

    /** `new Option(val)`, called with an argument. */
    constructor WithValue(val: JsValue)
      ensures Valid() && state == SomeType && value == val
    {
      state := SomeType;
      value := val;
    }

    /** `new Option()`, called without an argument. */
    constructor Empty()
      ensures Valid() && state == NoneType
    {
      state := NoneType;
      value := Undefined;
    }

    /** The cell is Some and holds `v`. */
    predicate Holds(v: JsValue)
      reads this
    {
      state == SomeType && value == v
    }

    predicate IsSome()
      reads this
    {
      state == SomeType
    }

    function IsNone(): (r: bool)
      reads this
      ensures r <==> !IsSome()
    {
      !IsSome()
    }

    /** Only a Some cell asks its predicate; a None cell answers false
        whatever the predicate. */
    function IsSomeAnd(fn: JsValue -> bool): (r: bool)
      reads this
      ensures r <==> IsSome() && fn(value)
      ensures IsNone() ==> !r
    {
      IsSome() && CheckCondition(Pred(fn), value)
    }

    function Expect(message: string): (r: Completion)
      reads this
      ensures IsSome() <==> r.Normal?
      ensures IsSome() ==> r.value == value
      ensures IsNone() ==> r == Throw(message)
    {
      if IsNone() then Throw(message) else Normal(value)
    }

    /** `this.value || resolveParam(param)`: a falsy value held by a Some
        cell falls through to the default as a None cell does. */
    function ExpectOr(param: Param<JsValue>): (r: JsValue)
      reads this
      ensures IsSome() && Truthy(value) ==> r == value
      ensures IsSome() && !Truthy(value) ==> r == ResolveParam(param)
      ensures Valid() && IsNone() ==> r == ResolveParam(param)
    {
      if Truthy(value) then value else ResolveParam(param)
    }

    /** The arguments the callback of `inspect(cb)` receives, in order. */
    function Inspect(): (calls: seq<JsValue>)
      reads this
      ensures IsSome() <==> calls != []
      ensures IsSome() ==> calls == [value]
    {
      if IsSome() then [value] else []
    }

    method Map(fn: JsValue -> JsValue) returns (r: Option)
      ensures fresh(r) && r.Valid()
      ensures IsNone() ==> r.IsNone()
      ensures IsSome() ==> r.Holds(fn(value))
    {
      if IsNone() {
        r := NoneOf();
        return;
      }
      r := SomeOf(Lit(fn(value)));
    }

    /** `map(fn).expectOr(orValue)`: the mapped value when it is truthy,
        otherwise the resolved default. */
    method MapOr(fn: JsValue -> JsValue, orValue: Param<JsValue>) returns (r: JsValue)
      ensures IsSome() && Truthy(fn(value)) ==> r == fn(value)
      ensures !(IsSome() && Truthy(fn(value))) ==> r == ResolveParam(orValue)
    {
      var mapped := Map(fn);
      r := mapped.ExpectOr(orValue);
    }

    /** `ok_or(error)`. */
    function OkOr(error: Param<JsValue>): (r: Result)
      reads this
      ensures IsNone() ==> r == Result(ErrType, ResolveParam(error))
      ensures IsSome() ==> r == Result(OkType, value)
    {
      if IsNone() then ErrOf(error) else OkOf(Lit(value))
    }

    /** Returns the receiver object when it is None, the argument object when
        it is Some; the result is Some exactly when both are. */
    function And(option: Option): (r: Option)
      reads this, option
      ensures IsNone() ==> r == this
      ensures IsSome() ==> r == option
      ensures r.IsSome() <==> IsSome() && option.IsSome()
    {
      if IsNone() then this else option
    }

    /** `map(fn).expectOr(none())`. Since `map` stores the Option object that
        `fn` returns and an object is always truthy, a Some receiver yields
        that very object and a None receiver the new empty Option passed as
        default. */
    method AndThen(fn: JsValue -> Option) returns (r: Option)
      ensures IsSome() ==> r == fn(value)
      ensures IsNone() ==> fresh(r) && r.Valid() && r.IsNone()
    {
      if IsNone() {
        r := NoneOf();
        return;
      }
      r := fn(value);
    }

    /** Keeps the receiver object when it is None or its value passes,
        otherwise returns a new None. */
    method Filter(pred: JsValue -> bool) returns (r: Option)
      ensures IsNone() ==> r == this
      ensures IsSome() && pred(value) ==> r == this
      ensures IsSome() && !pred(value) ==> fresh(r) && r.Valid() && r.IsNone()
    {
      if IsNone() {
        return this;
      }
      if CheckCondition(Pred(pred), value) {
        r := this;
      } else {
        r := NoneOf();
      }
    }

    /** Returns the receiver object when it is Some, the argument object
        otherwise; the result is Some exactly when one of them is. */
    function Or(option: Option): (r: Option)
      reads this, option
      ensures IsSome() ==> r == this
      ensures IsNone() ==> r == option
      ensures r.IsSome() <==> IsSome() || option.IsSome()
    {
      if IsSome() then this else option
    }

    /** Returns the receiver object when it is Some; only otherwise is the
        producer asked for an Option. */
    function OrElse(fn: () -> Option): (r: Option)
      reads this
      ensures IsSome() ==> r == this
      ensures IsNone() ==> r == fn()
    {
      if IsSome() then this else fn()
    }

    /** Some exactly when one operand is Some, and then that operand object
        itself. */
    method Xor(option: Option) returns (r: Option)
      ensures IsSome() && option.IsNone() ==> r == this
      ensures IsNone() && option.IsSome() ==> r == option
      ensures IsSome() == option.IsSome() ==> fresh(r) && r.Valid() && r.IsNone()
      ensures r.IsSome() <==> IsSome() != option.IsSome()
    {
      if IsSome() && option.IsNone() {
        return this;
      }
      if IsNone() && option.IsSome() {
        return option;
      }
      r := NoneOf();
    }

    /** Stores the resolved parameter, which becomes Some whatever it was
        before, and returns it. */
    method Insert(param: Param<JsValue>) returns (r: JsValue)
      modifies this
      ensures Valid()
      ensures Holds(ResolveParam(param)) && r == value
    {
      var val := ResolveParam(param);
      state := SomeType;
      value := val;
      r := val;
    }

    /** A Some cell returns its value and is not changed; a None cell behaves
        like `insert`. */
    method GetOrInsert(param: Param<JsValue>) returns (r: JsValue)
      requires Valid()
      modifies this
      ensures Valid()
      ensures old(IsSome()) ==> r == old(value) && unchanged(this)
      ensures old(IsNone()) ==> Holds(ResolveParam(param)) && r == value
    {
      if IsSome() {
        return value;
      }
      r := Insert(param);
    }

    /** A Some cell hands its value to a new Some and becomes None; a None
        cell is not changed and a new None is returned. */
    method Take() returns (r: Option)
      requires Valid()
      modifies this
      ensures Valid() && IsNone() && fresh(r) && r.Valid()
      ensures old(IsSome()) ==> r.Holds(old(value))
      ensures old(IsNone()) ==> r.IsNone() && unchanged(this)
    {
      if IsSome() {
        r := SomeOf(Lit(value));
        state := NoneType;
        value := Undefined;
      } else {
        r := NoneOf();
      }
    }

    /** A None receiver is returned itself; a Some receiver is taken when its
        value passes, and left as it was otherwise. */
    method TakeIf(pred: JsValue -> bool) returns (r: Option)
      requires Valid()
      modifies this
      ensures Valid()
      ensures old(IsNone()) ==> r == this && unchanged(this)
      ensures old(IsSome()) && pred(old(value)) ==> fresh(r) && r.Holds(old(value)) && IsNone()
      ensures old(IsSome()) && !pred(old(value)) ==> fresh(r) && r.Valid() && r.IsNone() && unchanged(this)
    {
      if IsNone() {
        return this;
      }
      if CheckCondition(Pred(pred), value) {
        r := Take();
      } else {
        r := NoneOf();
      }
    }

    /** Stores the resolved parameter; a Some cell returns the value it
        held before, a None cell (via `insert`) the new value. */
    method Replace(param: Param<JsValue>) returns (r: JsValue)
      requires Valid()
      modifies this
      ensures Valid() && Holds(ResolveParam(param))
      ensures old(IsSome()) ==> r == old(value)
      ensures old(IsNone()) ==> r == value
    {
      if IsNone() {
        r := Insert(param);
        return;
      }
      var val := ResolveParam(param);
      var previous := value;
      value := val;
      r := previous;
    }

    /** A new Some holding the two-element array of both values exactly when
        both operands are Some. */
    method Zip(other: Option) returns (r: Option)
      ensures fresh(r) && r.Valid()
      ensures r.IsSome() <==> IsSome() && other.IsSome()
      ensures r.IsSome() ==> r.value == Arr([value, other.value])
    {
      if IsNone() || other.IsNone() {
        r := NoneOf();
        return;
      }
      r := SomeOf(Lit(Arr([value, other.value])));
    }

    /** `zip(other).map(([a, b]) => fn(a, b))`. */
    method ZipWith(other: Option, fn: (JsValue, JsValue) -> JsValue) returns (r: Option)
      ensures fresh(r) && r.Valid()
      ensures r.IsSome() <==> IsSome() && other.IsSome()
      ensures r.IsSome() ==> r.value == fn(value, other.value)
    {
      var zipped := Zip(other);
      var call := (pair: JsValue) => fn(Element(pair, 0), Element(pair, 1));
      r := zipped.Map(call);
      if r.IsSome() {
        var pair := Arr([value, other.value]);
        assert Element(pair, 0) == value && Element(pair, 1) == other.value;
      }
    }

    /** Not a pairwise unzip: a Some array splits into its first element and
        the array of the remaining ones; any other Some value gives
        `[Some(value), None]`, a None cell `[None, None]`. */
    method Unzip() returns (first: Option, second: Option)
      ensures fresh(first) && fresh(second) && first.Valid() && second.Valid()
      ensures IsNone() ==> first.IsNone() && second.IsNone()
      ensures IsSome() && value.Arr? ==>
        first.Holds(First(value.items)) && second.Holds(Arr(Rest(value.items)))
      ensures IsSome() && !value.Arr? ==> first.Holds(value) && second.IsNone()
    {
      if IsNone() {
        first := NoneOf();
        second := NoneOf();
        return;
      }
      if value.Arr? {
        first := SomeOf(Lit(First(value.items)));
        second := SomeOf(Lit(Arr(Rest(value.items))));
        return;
      }
      first := SomeOf(Lit(value));
      second := NoneOf();
    }
  }

  /** `some(value)`: a new Some cell holding the resolved parameter. */
  method SomeOf(param: Param<JsValue>) returns (r: Option)
    ensures fresh(r) && r.Valid() && r.Holds(ResolveParam(param))
  {
    r := new Option.WithValue(ResolveParam(param));
  }

  /** `none()`: a new None cell. */
  method NoneOf() returns (r: Option)
    ensures fresh(r) && r.Valid() && r.IsNone()
  {
    r := new Option.Empty();
  }

  /** The argument of the `Result` constructor: `{ ok: p }` or `{ err: p }`. */
  datatype ResultPayload = OkPayload(ok: Param<JsValue>) | ErrPayload(err: Param<JsValue>)

  /** `Result<V, E>`: the two fields its constructor writes. When `state` is
      `ErrType`, `value` is the error. */
  datatype Result = Result(state: ResultType, value: JsValue) {

    predicate IsOk() {
      state == OkType
    }

    function IsErr(): (r: bool)
      ensures r <==> !IsOk()
    {
      !IsOk()
    }

    function IsOkAnd(fn: JsValue -> bool): (r: bool)
      ensures r <==> IsOk() && fn(value)
      ensures IsErr() ==> !r
    {
      IsOk() && CheckCondition(Pred(fn), value)
    }

    function IsErrAnd(fn: JsValue -> bool): (r: bool)
      ensures r <==> IsErr() && fn(value)
      ensures IsOk() ==> !r
    {
      IsErr() && CheckCondition(Pred(fn), value)
    }

    /** `ok()`: a new Option, Some with the success value exactly when Ok. */
    method Ok() returns (r: Option)
      ensures fresh(r) && r.Valid()
      ensures r.IsSome() <==> IsOk()
      ensures IsOk() ==> r.value == value
    {
      if IsOk() {
        r := SomeOf(Lit(value));
        return;
      }
      r := NoneOf();
    }

    /** `err()`: a new Option, Some with the error exactly when Err. */
    method Err() returns (r: Option)
      ensures fresh(r) && r.Valid()
      ensures r.IsSome() <==> IsErr()
      ensures IsErr() ==> r.value == value
    {
      if IsErr() {
        r := SomeOf(Lit(value));
        return;
      }
      r := NoneOf();
    }

    /** An Err passes through unchanged; an Ok value is transformed. */
    function Map(fn: JsValue -> JsValue): (r: Result)
      ensures IsErr() ==> r == this
      ensures IsOk() ==> r == Result(OkType, fn(value))
    {
      if IsErr() then ErrOf(Lit(value)) else OkOf(Lit(fn(value)))
    }

    /** `map(fn).ok().expectOr(orValue)`. */
    method MapOr(fn: JsValue -> JsValue, orValue: Param<JsValue>) returns (r: JsValue)
      ensures IsOk() && Truthy(fn(value)) ==> r == fn(value)
      ensures !(IsOk() && Truthy(fn(value))) ==> r == ResolveParam(orValue)
    {
      var mapped := Map(fn);
      var projected := mapped.Ok();
      r := projected.ExpectOr(orValue);
    }

    /** An Ok passes through unchanged; an error is transformed. */
    function MapErr(fn: JsValue -> JsValue): (r: Result)
      ensures IsOk() ==> r == this
      ensures IsErr() ==> r == Result(ErrType, fn(value))
    {
      if IsOk() then OkOf(Lit(value)) else ErrOf(Lit(fn(value)))
    }

    /** The arguments the callback of `inspect(cb)` receives. */
    function Inspect(): (calls: seq<JsValue>)
      ensures IsOk() <==> calls != []
      ensures IsOk() ==> calls == [value]
    {
      if IsOk() then [value] else []
    }

    /** The arguments the callback of `inspectErr(cb)` receives. */
    function InspectErr(): (calls: seq<JsValue>)
      ensures IsErr() <==> calls != []
      ensures IsErr() ==> calls == [value]
    {
      if IsErr() then [value] else []
    }

    function Expect(message: string): (r: Completion)
      ensures IsOk() <==> r.Normal?
      ensures IsOk() ==> r.value == value
      ensures IsErr() ==> r == Throw(message)
    {
      if IsErr() then Throw(message) else Normal(value)
    }

    /** `ok().expectOr(param)`: the success value when it is truthy,
        otherwise the resolved default. */
    method ExpectOr(param: Param<JsValue>) returns (r: JsValue)
      ensures IsOk() && Truthy(value) ==> r == value
      ensures !(IsOk() && Truthy(value)) ==> r == ResolveParam(param)
    {
      var projected := Ok();
      r := projected.ExpectOr(param);
    }

    function ExpectErr(message: string): (r: Completion)
      ensures IsErr() <==> r.Normal?
      ensures IsErr() ==> r.value == value
      ensures IsOk() ==> r == Throw(message)
    {
      if IsOk() then Throw(message) else Normal(value)
    }

    /** An Err receiver wins; otherwise the argument. */
    function And(result: Result): (r: Result)
      ensures IsErr() ==> r == this
      ensures IsOk() ==> r == result
      ensures r.IsOk() <==> IsOk() && result.IsOk()
    {
      if IsErr() then this else result
    }

    /** `map(fn).ok().expectOr(err(value))`. `map` stores the Result that
        `fn` returns, an object and so truthy: an Ok receiver yields that
        Result, an Err receiver a new Err with the same error. */
    function AndThen(fn: JsValue -> Result): (r: Result)
      ensures IsErr() ==> r == Result(ErrType, value)
      ensures IsOk() ==> r == fn(value)
    {
      if IsErr() then ErrOf(Lit(value)) else fn(value)
    }

    /** An Ok receiver wins; otherwise the argument. */
    function Or(result: Result): (r: Result)
      ensures IsOk() ==> r == this
      ensures IsErr() ==> r == result
      ensures r.IsOk() <==> IsOk() || result.IsOk()
    {
      if IsOk() then this else result
    }

    /** `mapErr(fn).err().expectOr(ok(value))`: an Err receiver yields the
        Result `fn` returns for its error, an Ok receiver a new Ok with the
        same value. */
    function OrElse(fn: JsValue -> Result): (r: Result)
      ensures IsOk() ==> r == Result(OkType, value)
      ensures IsErr() ==> r == fn(value)
    {
      if IsOk() then OkOf(Lit(value)) else fn(value)
    }
  }

  /** The `Result` constructor: the tag decides the state, and the payload is
      resolved. */
  function NewResult(payload: ResultPayload): (r: Result)
    ensures r.IsOk() <==> payload.OkPayload?
    ensures payload.OkPayload? ==> r.value == ResolveParam(payload.ok)
    ensures payload.ErrPayload? ==> r.value == ResolveParam(payload.err)
  {
    match payload
    case OkPayload(p) => Result(OkType, ResolveParam(p))
    case ErrPayload(p) => Result(ErrType, ResolveParam(p))
  }

  /** `ok(value)`: resolves the parameter, and the constructor resolves the
      result once more; on this value domain the second resolution changes
      nothing. */
  function OkOf(param: Param<JsValue>): (r: Result)
    ensures r == Result(OkType, ResolveParam(param))
  {
    NewResult(OkPayload(Lit(ResolveParam(param))))
  }

  /** `err(value)`, resolved twice like `ok`. */
  function ErrOf(param: Param<JsValue>): (r: Result)
    ensures r == Result(ErrType, ResolveParam(param))
  {
    NewResult(ErrPayload(Lit(ResolveParam(param))))
  }
}
