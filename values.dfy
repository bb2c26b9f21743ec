/** The JavaScript values the model lets a container hold, a handler return
    or a condition test. Functions and objects are deliberately absent: a
    stored value is therefore never re-invoked when it passes through
    `resolveParam` a second time. Numbers are integers (no NaN, no -0). */
module JsValues {

  datatype JsValue =
    | Undefined
    | Null
    | Bool(b: bool)
    | Num(n: int)
    | Str(s: string)
    | Arr(items: seq<JsValue>)

  /** JavaScript truthiness (what `x || y` tests): `undefined`, `null`,
      `false`, `0` and `""` are falsy, everything else (every array, even an
      empty one) is truthy. */
  predicate Truthy(v: JsValue) {
    match v
    case Undefined => false
    case Null => false
    case Bool(b) => b
    case Num(n) => n != 0
    case Str(s) => s != ""
    case Arr(_) => true
  }

  /** `const [first, ...rest] = v` on an array: the first element, or
      `undefined` when the array is empty. */
  function First(items: seq<JsValue>): JsValue {
    if |items| > 0 then items[0] else Undefined
  }

  /** `const [first, ...rest] = v` on an array: the remaining elements, an
      empty array when there are none. */
  function Rest(items: seq<JsValue>): (r: seq<JsValue>)
    ensures |items| > 0 ==> [First(items)] + r == items
    ensures |items| == 0 ==> r == []
  {
    if |items| > 0 then items[1..] else []
  }

  /** Element `i` of an array value, `undefined` past its end or when the
      value is not an array (array destructuring `[a, b]`). */
  function Element(v: JsValue, i: nat): JsValue {
    if v.Arr? && i < |v.items| then v.items[i] else Undefined
  }

  lemma FalsyValues(v: JsValue)
    ensures !Truthy(v) <==> v == Undefined || v == Null || v == Bool(false) || v == Num(0) || v == Str("")
  {
  }
}
