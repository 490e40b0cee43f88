/** The decision taken by a typed object's setter before it commits a value:
    the case analysis over `typeof` and `length` in src/typed-object.js. */
module TypeGuard {
  import opened JsValues

  /** Why a write is refused. `Mismatch` is the error the setter raises
      itself, with the expected and the actual type names; `NullLength` is the
      host's error when the guard reads `length` of `null`. */
  datatype Rejection = Mismatch(expected: string, actual: string) | NullLength

  datatype Verdict = Accept | Reject(rejection: Rejection)

  /** The guard for a key whose template value is `declared`, given the
      incoming `value`. The checks run in the source's order, so the first
      failing one decides the rejection. A write is accepted exactly when the
      incoming value has the declared value's classification (and the
      declared value is not `null`); every mismatch names the declared
      classification and the incoming one, which always differ. */
  function Guard(declared: Value, value: Value): (v: Verdict)
    ensures v == Accept <==> declared != Null && Classify(value) == Classify(declared)
    ensures v == Reject(NullLength) <==> declared == Null || (declared.Obj? && value == Null)
    ensures v.Reject? && v.rejection.Mismatch? ==>
      && v.rejection.expected == Label(Classify(declared))
      && v.rejection.actual == (if declared.Obj? then Label(Classify(value)) else TypeOf(value))
      && v.rejection.expected != v.rejection.actual
  {
    var tag := TypeOf(declared);
    if tag == "object" then
      if TypeOf(value) != "object" then
        // a primitive (or function) written to an object-declared key
        match LengthDefined(declared)
        case None => Reject(NullLength)
        case Some(declaredLength) =>
          Reject(Mismatch(if declaredLength then "array" else "object", TypeOf(value)))
      else
        match LengthDefined(declared)
        case None => Reject(NullLength)
        case Some(declaredLength) =>
          if declaredLength then
            // `declared.length` is defined, so `value.length` is read next
            match LengthDefined(value)
            case None => Reject(NullLength)
            case Some(valueLength) =>
              if !valueLength then Reject(Mismatch("array", "object")) else Accept
          else
            // the first check short-circuits; the second reads `value.length`
            match LengthDefined(value)
            case None => Reject(NullLength)
            case Some(valueLength) =>
              if valueLength then Reject(Mismatch("object", "array")) else Accept
    else if TypeOf(value) != tag then
      Reject(Mismatch(tag, TypeOf(value)))
    else
      Accept
  }

  /** A key declared with a non-object value accepts exactly the values with
      the same `typeof`, and reports any other as (declared tag, incoming tag). */
  lemma PrimitiveDeclared(declared: Value, value: Value)
    requires TypeOf(declared) != "object"
    ensures Guard(declared, value) == Accept <==> TypeOf(value) == TypeOf(declared)
    ensures TypeOf(value) != TypeOf(declared) ==>
      Guard(declared, value) == Reject(Mismatch(TypeOf(declared), TypeOf(value)))
  {
  }

  /** A non-object written to a key declared with an object is refused as
      expected "array" when the template value has a `length`, else "object",
      with the incoming `typeof` as the actual type. */
  lemma PrimitiveToObjectDeclared(ref: nat, hasLength: bool, value: Value)
    requires TypeOf(value) != "object"
    ensures Guard(Obj(ref, hasLength), value) ==
      Reject(Mismatch(if hasLength then "array" else "object", TypeOf(value)))
  {
  }

  /** The array/object asymmetry between two non-null objects: array-like to
      plain is refused as ("array", "object"), plain to array-like as
      ("object", "array"), and anything else is accepted, whatever the two
      objects contain. */
  lemma ObjectToObjectDeclared(declaredRef: nat, declaredLength: bool, ref: nat, hasLength: bool)
    ensures declaredLength && !hasLength ==>
      Guard(Obj(declaredRef, declaredLength), Obj(ref, hasLength)) == Reject(Mismatch("array", "object"))
    ensures !declaredLength && hasLength ==>
      Guard(Obj(declaredRef, declaredLength), Obj(ref, hasLength)) == Reject(Mismatch("object", "array"))
    ensures declaredLength == hasLength ==>
      Guard(Obj(declaredRef, declaredLength), Obj(ref, hasLength)) == Accept
  {
  }
}
