/** The slice of JavaScript's value space that the typed-object guard can see:
    the `typeof` tag of a value and whether `value.length` is defined. */
module JsValues {

  /** A JavaScript value. Objects and functions carry an identity `ref`;
      `hasLength` abstracts `typeof o.length !== 'undefined'` for an object. */
  datatype Value =
    | Undefined
    | Null
    | Bool(b: bool)
    | Num(n: int)
    | BigInt(i: int)
    | Str(s: string)
    | Sym(id: nat)
    | Obj(ref: nat, hasLength: bool)
    | Func(ref: nat)

  /** The `typeof` operator. Note that `typeof null` is "object". */
  function TypeOf(v: Value): string
  {
    match v
    case Undefined => "undefined"
    case Null => "object"
    case Bool(_) => "boolean"
    case Num(_) => "number"
    case BigInt(_) => "bigint"
    case Str(_) => "string"
    case Sym(_) => "symbol"
    case Obj(_, _) => "object"
    case Func(_) => "function"
  }

  /** Evaluating `typeof v.length !== 'undefined'`: None when reading the
      property throws (on `undefined` and `null`), otherwise whether it is
      defined. Strings and functions have a `length`; other primitives do not. */
  function LengthDefined(v: Value): Option<bool>
  {
    match v
    case Undefined => None
    case Null => None
    case Str(_) => Some(true)
    case Func(_) => Some(true)
    case Obj(_, hasLength) => Some(hasLength)
    case _ => Some(false)
  }

  datatype Option<+T> = None | Some(value: T)

  /** The classification the type guard is meant to preserve: an object is
      array-like exactly when it has a `length`; everything else keeps its
      native tag. `null` is set apart because its `length` cannot be read. */
  datatype Kind = Native(tag: string) | PlainObject | ArrayLike | NullObject

  function Classify(v: Value): Kind
  {
    match v
    case Null => NullObject
    case Obj(_, hasLength) => if hasLength then ArrayLike else PlainObject
    case _ => Native(TypeOf(v))
  }

  /** The type name under which a kind is reported in an assignment error. */
  function Label(k: Kind): string
  {
    match k
    case Native(tag) => tag
    case PlainObject => "object"
    case ArrayLike => "array"
    case NullObject => "object"
  }
}
