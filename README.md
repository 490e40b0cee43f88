# TypedObject, modelled in Dafny

TypedObject (src/typed-object.js) wraps a plain object as a type-guarded
object. The constructor takes a template object. For each own property name of
the template, in enumeration order, it seeds a private store with the
template value. A function value makes it throw. Any other value gets an
enumerable getter/setter pair on the target object: `this` of a `new` call, or
a supplied context. After the loop the target is sealed. The setter compares
the incoming value with the key's template value, using `typeof` and, for
objects, whether a `length` is defined. It then either throws a `TypeError`
naming the expected and actual type or commits the value to the store.
`toObject` copies every own property's current getter value into a fresh
plain object.

The project has three modules:

- `JsValues` (js_values.dfy) holds the JavaScript values the guard can tell
  apart. It defines `typeof`, the `typeof v.length !== 'undefined'` probe, and
  the classification the guard is meant to preserve: the native tag, a plain
  object, an array-like object, or `null`.
- `TypeGuard` (type_guard.dfy) is the setter's decision as a pure function.
  It follows the source's order of checks and is characterised against that
  classification.
- `TypedObjects` (typed_object.dfy) contains:
  - the template;
  - the construction loop, as a specification function `Constructed` and the
    method `Define` proved against it;
  - the setter as a pure step `Write` and a method `Set`;
  - the class `TypedObject`, whose fields are the closure state: the template
    `obj`, the private `dataStore`, the accessor keys defined so far, and
    whether the object is sealed;
  - `toObject` as a read-only method with a loop.

Errors are values: `Outcome`/`Result`, with `MethodNotPermitted(key)`,
`NotAssignable(key, expected, actual)`, `NullLengthRead` and
`NotExtensible(key)`.

Three behaviours of the code are easy to miss:

- The store is seeded with a key's template value before that value is
  checked for being a function. On a refusal, every earlier key stays defined
  on the target, the offending key is seeded, and the target is not sealed.
  When a context is supplied, this partial state is visible to the caller.
- `typeof null` is `"object"`, so the guard reads `.length` of `null` when the
  template value is `null` or when `null` is written to an object-declared
  key. That read throws, so the write is refused and the store is unchanged.
  A key whose template value is `null` therefore accepts no write at all.
- For a key whose template value is not an object, the reported actual type is
  the incoming value's `typeof`. An array written to a number key is therefore
  reported as `"object"`, not `"array"`.

## Model

| member | source | states |
|---|---|---|
| TypeGuard.Guard | src/typed-object.js:37-69 | a write is accepted exactly when the template value is not null and the incoming value has its classification (same native tag; for objects, the same presence of `length`); reading `length` of null is refused exactly when the template value is null or null is written to an object-declared key; every type mismatch reports the template value's classification as expected, the incoming value's (its `typeof` for a non-object key) as actual, and the two always differ |
| TypeGuard.PrimitiveDeclared | src/typed-object.js:65-68 | for a template value whose `typeof` is not "object", a write is accepted iff the `typeof` values match, and otherwise fails with (template tag, incoming tag) |
| TypeGuard.PrimitiveToObjectDeclared | src/typed-object.js:41-48 | a non-object written to an object-declared key fails with expected "array" when the template value has a `length`, else "object", and actual the incoming `typeof` |
| TypeGuard.ObjectToObjectDeclared | src/typed-object.js:50-62 | between two non-null objects: array-like to plain fails ("array", "object"), plain to array-like fails ("object", "array"), and a match is accepted whatever the objects contain |
| TypedObjects.FirstMethod | src/typed-object.js:74-83 | returns the first position in enumeration order whose template value is a function: every earlier value is not a function; None iff no value is a function |
| TypedObjects.ConstructedWithoutMethods | src/typed-object.js:25-96 | without function values, construction defines exactly the template's names in order, stores each template value so that it reads back, and seals |
| TypedObjects.ConstructedAtFirstMethod | src/typed-object.js:74-96 | with a function value, construction throws naming the first such key; earlier keys are defined and seeded, that key is seeded but not defined, later keys are neither, and the object is not sealed |
| TypedObjects.ConstructedConsistent | src/typed-object.js:74-94 | whatever the template, in the state construction leaves every defined key has a template value that is not a function and a stored value of that value's classification |
| TypedObjects.Write | src/typed-object.js:37-72 | the setter commits a value exactly when it has the template value's (non-null) classification; a refused write leaves the store unchanged; a committed one changes only that key; the null-`length` error arises exactly when the template value is null or null is written to an object-declared key; a mismatch names the key, the template value's classification as expected and the incoming value's (its `typeof` for a non-object key) as actual, and the two differ |
| TypedObjects.ReplayConsistent | src/typed-object.js:71-92 | any series of writes to defined keys keeps every stored value in its template value's classification and leaves the store's key set unchanged |
| TypedObjects.TypedObject.constructor | src/typed-object.js:23-25 | the target object starts with no own properties, an empty store and is not sealed |
| TypedObjects.TypedObject.DefineKey | src/typed-object.js:74-94 | the per-key callback seeds the store with the template value, fails with MethodNotPermitted(key) exactly for a function value, and otherwise appends the key to the defined accessors |
| TypedObjects.TypedObject.Define | src/typed-object.js:22-97 | running the constructor body on an object leaves exactly the keys, store, seal flag and outcome that `Constructed` describes, and the object's invariant holds |
| TypedObjects.TypedObject.Construct | src/typed-object.js:22-97 | `new TypedObject(obj)` yields a fresh sealed object with the template's keys and values exactly when no template value is a function, and otherwise the first function key's error and no object |
| TypedObjects.TypedObject.Get | src/typed-object.js:87-89 | the getter returns the stored value, which always has the classification of the key's template value |
| TypedObjects.TypedObject.Set | src/typed-object.js:37-72 | the setter's error and new store are those of `Write`; keys, template and seal are untouched and the invariant is kept |
| TypedObjects.TypedObject.Assign | src/typed-object.js:85-96 | on a sealed typed object, writing a defined key goes through its setter, and writing any other key fails and changes nothing |
| TypedObjects.TypedObject.ToObject | src/typed-object.js:104-114 | returns a mapping whose keys are exactly the object's own property names and whose values are the current getter values; the object is not modified |

## Left out

- The module registration at src/typed-object.js:116-139 (CommonJS, AMD, a
  `window` global) and gulpfile.js are packaging and build tooling with no
  runtime behaviour.
- Error message text: errors carry the key and the expected and actual type
  names, not the formatted English message.
- Numbers are an integer payload. No arithmetic happens on them, and IEEE
  floating point is not modelled.
- `Obj(ref, hasLength)` fixes whether `o.length` is defined for each object.
  Objects whose `length` changes over time, and `length` getters that throw,
  are not modelled.
- A supplied context is modelled as an object without own properties. Its
  pre-existing properties, its prototype, and what `new` returns when a
  context is passed are not modelled.
- TypedObject.Define requires a target with no accessor keys that is not
  sealed. Running the constructor twice on the same object, which would
  redefine or fail to define properties, is not modelled.
- Mutation of the template object after construction is not modelled. The
  setter re-reads `obj[key]`, so aliasing would change the guard. The
  `template` field is never written after construction.
- TypedObject.Assign: strict-mode and sloppy-mode writes to an unknown key of
  a sealed object are merged into one refusal that changes nothing. Deleting
  or reconfiguring sealed properties is not modelled.
- TypedObject.ToObject: the result is a map, so the enumeration order of the
  output object's keys is not captured.
- Non-enumerable own property names of the template, and the ordering rule of
  `Object.getOwnPropertyNames`, are not modelled. The template's names are a
  given sequence. Only TypedObjects.ConstructedAtFirstMethod assumes that no
  name is listed twice (`Template.Distinct`); the other members accept
  repeated names.
- TypedObjects.Constructed, TypedObjects.TypedObject.Define,
  TypedObjects.TypedObject.Set, TypedObjects.TypedObject.Get and
  TypedObjects.TypedObject.ToObject: a
  template name `__proto__` is treated as an ordinary key. In the code, the
  store and the `toObject` output are plain objects whose inherited
  `__proto__` accessor takes those writes (src/typed-object.js:71, 75, 110).
  A primitive write is ignored and an object write replaces the prototype, so
  no own key is created: the getter returns the store's prototype rather than
  a seeded primitive, and the output object gets no such own key. For that
  name these contracts do not hold as stated.
