/** Option and Result, as used throughout the model. */
module Results {

  datatype Option<+T> = None | Some(value: T)

  /** The outcome of an operation that may throw: `Err` stands for a
      synchronous `throw new Error(...)`. */
  datatype Result<+T, +E> = Ok(value: T) | Err(error: E)
}

/** The subset of JavaScript values that the library inspects. Values are
    immutable here: a JavaScript object is modelled by the map of its own
    enumerable properties, and functions only by an identity. */
module Js {

  /** Identity of a function value. `EmptyFn` is the library's no-op
      (`emptyFn`), `DefaultPrompt` its default announcement hook (`prompt`). */
  datatype FnRef = EmptyFn | DefaultPrompt | UserFn(id: nat)

  datatype JsValue =
    | Undefined
    | Null
    | Bool(b: bool)
    | Num(n: int)
    | Str(s: string)
    | Arr(elems: seq<JsValue>)
    | Fn(fn: FnRef)
    | Obj(fields: map<string, JsValue>)
      /** `process.stdout` (fd 1) or `process.stderr` (fd 2): objects that
          are compared by identity. */
    | HostStream(fd: nat)

  /** The answer of the `typeof` operator. */
  datatype TypeOf =
    | UndefinedType | ObjectType | BooleanType | NumberType | StringType | FunctionType

  function Typeof(v: JsValue): TypeOf {
    match v
    case Undefined => UndefinedType
    case Null => ObjectType
    case Bool(_) => BooleanType
    case Num(_) => NumberType
    case Str(_) => StringType
    case Arr(_) => ObjectType
    case Fn(_) => FunctionType
    case Obj(_) => ObjectType
    case HostStream(_) => ObjectType
  }

  /** JavaScript truthiness (`if (v)`, `v && ...`). */
  predicate Truthy(v: JsValue) {
    match v
    case Undefined => false
    case Null => false
    case Bool(b) => b
    case Num(n) => n != 0
    case Str(s) => s != ""
    case _ => true
  }

  /** `Array.isArray(v)`. */
  predicate IsArray(v: JsValue) {
    v.Arr?
  }

  /** lodash's `isObject`: truthy and of type object or function. */
  predicate IsObject(v: JsValue) {
    Truthy(v) && (Typeof(v) == ObjectType || Typeof(v) == FunctionType)
  }

  /** lodash's `isFunction`, with the engine quirks abstracted to the value tag. */
  predicate IsFunction(v: JsValue) {
    IsObject(v) && v.Fn?
  }

  lemma {:induction false} ObjectTags(v: JsValue)
    ensures IsObject(v) <==> v.Arr? || v.Fn? || v.Obj? || v.HostStream?
    ensures IsFunction(v) <==> Typeof(v) == FunctionType
    ensures Typeof(v) == ObjectType && Truthy(v) <==> v.Arr? || v.Obj? || v.HostStream?
  {
  }

  /** `argv[i]` on an arguments list: missing positions read as undefined. */
  function Arg(argv: seq<JsValue>, i: nat): (r: JsValue)
    ensures i >= |argv| ==> r == Undefined
  {
    if i < |argv| then argv[i] else Undefined
  }

  /** `obj.name` on a plain object: a missing property reads as undefined. */
  function Get(m: map<string, JsValue>, name: string): JsValue {
    if name in m then m[name] else Undefined
  }

  function DigitChar(d: nat): char
    requires d < 10
  {
    "0123456789"[d]
  }

  /** The decimal property name of an array or string index. */
  function NatToString(n: nat): (r: string)
    ensures |r| >= 1
  {
    if n < 10 then [DigitChar(n)] else NatToString(n / 10) + [DigitChar(n % 10)]
  }

  /** `v[i]` for a small non-negative index `i`. */
  function Elem(v: JsValue, i: nat): JsValue {
    match v
    case Arr(s) => if i < |s| then s[i] else Undefined
    case Str(s) => if i < |s| then Str([s[i]]) else Undefined
    case Obj(m) => Get(m, NatToString(i))
    case _ => Undefined
  }

  /** The index-keyed properties of an array-like value. */
  function IndexProps(elems: seq<JsValue>): map<string, JsValue>
    decreases |elems|
  {
    if elems == [] then map[]
    else IndexProps(elems[..|elems| - 1])[NatToString(|elems| - 1) := elems[|elems| - 1]]
  }

  function Chars(s: string): (r: seq<JsValue>)
    ensures |r| == |s|
  {
    seq(|s|, i requires 0 <= i < |s| => Str([s[i]]))
  }

  /** The properties a `for (name in v)` loop visits, with their values:
      own keys of an object, indices of an array or a string, nothing for
      other values. Inherited enumerable properties are not modelled. */
  function Props(v: JsValue): map<string, JsValue> {
    match v
    case Obj(m) => m
    case Arr(s) => IndexProps(s)
    case Str(s) => IndexProps(Chars(s))
    case _ => map[]
  }
}
