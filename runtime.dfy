/**
 The slice of the JavaScript runtime and of lodash that the binder observes:
 JSON-shaped values (plus references to API clients), truthiness, `String(v)`,
 property reads, and lodash's `get`, `has` and `keys`.
 */
module Runtime {
  import opened Text

  /**
   A JavaScript value as the binder sees it. `Obj` holds an object's own
   enumerable data properties; `Ref` is a reference to an API client object,
   the only kind of value with a callable `request` method.
   */
  datatype Value =
    | Undefined
    | Null
    | Bool(b: bool)
    | Num(n: int)
    | Str(s: string)
    | Arr(items: seq<Value>)
    | Obj(props: map<string, Value>)
    | Ref(client: ApiClient)

  /** The `TypeError`s the binder can raise. */
  datatype JsError =
    | CannotReadProperty(key: string)   // reading `key` of undefined or null
    | NotAFunction(name: string)        // calling a value that is not a function
    | CannotConvertToPrimitive          // `String(v)` of an object without a usable `toString`

  /**
   An API client object. Its transport behaviour is not modelled: it records the
   options it was created with and the own fields written onto it afterwards.
   */
  class ApiClient {
    const options: Value
    var fields: map<string, Value>

    constructor (options: Value)
      ensures this.options == options && fields == map[]
    {
      this.options := options;
      fields := map[];
    }
  }

  predicate IsNullish(v: Value) {
    v.Undefined? || v.Null?
  }

  /** JavaScript's ToBoolean: what `v ? … : …` and `v || …` test. */
  predicate Truthy(v: Value) {
    match v
    case Undefined => false
    case Null => false
    case Bool(b) => b
    case Num(n) => n != 0
    case Str(s) => s != ""
    case _ => true
  }

  /** The one-character strings of `s`, as the elements `s[i]` of a string. */
  function Chars(s: string): (r: seq<Value>)
    ensures |r| == |s| && forall i :: 0 <= i < |s| ==> r[i] == Str([s[i]])
  {
    seq(|s|, i requires 0 <= i < |s| => Str([s[i]]))
  }

  /**
   The value of property `k` of `v`, for any `v` that is not undefined or null
   (`v[k]`): own properties of objects, indices of arrays and strings;
   every other property reads as `undefined`.
   */
  function Get(v: Value, k: string): Value {
    match v
    case Obj(props) => if k in props then props[k] else Undefined
    case Arr(items) =>
      var i := ArrayIndex(k);
      if i.Some? && i.value < |items| then items[i.value] else Undefined
    case Str(s) =>
      var i := ArrayIndex(k);
      if i.Some? && i.value < |s| then Str([s[i.value]]) else Undefined
    case _ => Undefined
  }

  /** The outcome of an operation that may throw one of the errors above. */
  datatype Result<T> = Ok(value: T) | Err(error: JsError)

  function Walk(v: Value, path: seq<string>): Value
    decreases |path|
  {
    if path == [] then v else Walk(Get(v, path[0]), path[1..])
  }

  /**
   lodash `get(path, v)` for a path already split at its dots: each key is
   read in turn, and a missing link anywhere yields `undefined`, never an error.
   */
  function GetPath(v: Value, path: seq<string>): Value {
    if path == [] then Undefined else Walk(v, path)
  }

  /** The own enumerable properties of an array (or of a string's characters). */
  function IndexProps(items: seq<Value>): map<string, Value> {
    if items == [] then map[]
    else IndexProps(items[..|items| - 1])[NatToString(|items| - 1) := items[|items| - 1]]
  }

  /**
   The keys of an array's enumeration are exactly the numerals of its indices,
   and each key is paired with the element at that index.
   */
  lemma {:induction false} IndexPropsSpec(items: seq<Value>)
    ensures forall j :: 0 <= j < |items| ==>
              NatToString(j) in IndexProps(items) && IndexProps(items)[NatToString(j)] == items[j]
    ensures forall k :: k in IndexProps(items) ==>
              ArrayIndex(k).Some? && ArrayIndex(k).value < |items| && k == NatToString(ArrayIndex(k).value)
  {
    if items != [] {
      var n := |items| - 1;
      var prefix := items[..n];
      IndexPropsSpec(prefix);
      ArrayIndexOfNatToString(n);
      forall j | 0 <= j < n ensures NatToString(j) != NatToString(n) {
        NatToStringInjective(j, n);
      }
    }
  }

  /**
   lodash `keys(v)` paired with `v[k]`: the properties an enumeration of `v`
   visits. Objects give their own properties, arrays and strings their
   indices; numbers, booleans, undefined and null have none.
   */
  function OwnProps(v: Value): map<string, Value> {
    match v
    case Obj(props) => props
    case Arr(items) => IndexProps(items)
    case Str(s) => IndexProps(Chars(s))
    case _ => map[]
  }

  /** lodash `has(k, v)`: `v` has `k` as an own property. */
  predicate Has(v: Value, k: string) {
    k in OwnProps(v)
  }

  /** Every enumerated key reads back the value the enumeration pairs it with. */
  lemma OwnPropsAgreeWithGet(v: Value, k: string)
    requires k in OwnProps(v)
    ensures OwnProps(v)[k] == Get(v, k)
  {
    match v
    case Obj(_) =>
    case Arr(items) =>
      IndexPropsSpec(items);
    case Str(s) =>
      IndexPropsSpec(Chars(s));
  }

  /** A value that is false under ToBoolean enumerates no property. */
  lemma FalsyHasNoProps(v: Value)
    requires !Truthy(v)
    ensures OwnProps(v) == map[]
  {
    if v.Str? {
      assert Chars(v.s) == [];
    }
  }

  /**
   Whether `String(v)` returns rather than throws. An object's own `toString`
   property holds a value that is not a function (no value here is one), so
   ToPrimitive falls back to the inherited `valueOf`, which returns the object
   itself, and throws. An array converts through `join`, which converts each
   element that is not undefined or null.
   */
  predicate Stringable(v: Value): (r: bool)
    ensures !v.Obj? && !v.Arr? ==> r
  {
    match v
    case Obj(props) => "toString" !in props
    case Arr(items) => forall i :: 0 <= i < |items| ==> Stringable(items[i])
    case _ => true
  }

  /** `String(v)`: the text a value turns into where a string is expected (see `Stringable`). */
  function ToJsString(v: Value): (r: string)
    ensures !v.Str? && !v.Arr? ==> '$' !in r && '*' !in r
  {
    match v
    case Undefined => "undefined"
    case Null => "null"
    case Bool(b) => if b then "true" else "false"
    case Num(n) => IntToString(n)
    case Str(s) => s
    case Arr(items) =>
      // Array.prototype.join: elements separated by ",", undefined and null as ""
      Join(seq(|items|, i requires 0 <= i < |items| =>
        if IsNullish(items[i]) then "" else ToJsString(items[i])))
    case Obj(_) => "[object Object]"
    case Ref(_) => "[object Object]"
  }

  /** The strings of `parts`, separated by commas. */
  function Join(parts: seq<string>): string {
    if parts == [] then ""
    else if |parts| == 1 then parts[0]
    else parts[0] + "," + Join(parts[1..])
  }
}
