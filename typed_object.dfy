/** The typed object of src/typed-object.js: construction from a template,
    the guarded setter, the getter, and the `toObject` snapshot. */
module TypedObjects {
  import opened JsValues
  import opened TypeGuard

  /** A template object as its own property names, in enumeration order,
      and the value of each. */
  datatype Template = Template(names: seq<string>, values: map<string, Value>)
  {
    /** What every JavaScript object satisfies: its own property names are
        exactly the properties it has ... */
    ghost predicate WellFormed()
    {
      && (forall j :: 0 <= j < |names| ==> names[j] in values)
      && (forall k :: k in values ==> k in names)
    }

    /** ... and no name is listed twice. */
    ghost predicate Distinct()
    {
      forall i, j :: 0 <= i < j < |names| ==> names[i] != names[j]
    }
  }

  datatype Outcome<+E> = Pass | Fail(error: E)

  /** The construction error: a function-valued template entry. */
  datatype DefineError = MethodNotPermitted(key: string)

  /** The errors a property write can raise. */
  datatype WriteError =
    | NotAssignable(key: string, expected: string, actual: string)
    | NullLengthRead
    | NotExtensible(key: string)

  datatype Result<+T, +E> = Success(value: T) | Failure(error: E)

  predicate IsMethod(v: Value)
  {
    TypeOf(v) == "function"
  }

  /** The position, at or after `from`, of the first function-valued entry of
      the template in enumeration order, if there is one. */
  function FirstMethod(obj: Template, from: nat): (r: Option<nat>)
    requires obj.WellFormed() && from <= |obj.names|
    decreases |obj.names| - from
    ensures r.Some? ==>
      && from <= r.value < |obj.names|
      && IsMethod(obj.values[obj.names[r.value]])
      && forall j :: from <= j < r.value ==> !IsMethod(obj.values[obj.names[j]])
    ensures r.None? <==> forall j :: from <= j < |obj.names| ==> !IsMethod(obj.values[obj.names[j]])
  {
    if from == |obj.names| then None
    else if IsMethod(obj.values[obj.names[from]]) then Some(from)
    else
      var r := FirstMethod(obj, from + 1);
      assert r.None? ==> forall j :: from + 1 <= j < |obj.names| ==> !IsMethod(obj.values[obj.names[j]]);
      r
  }

  lemma PrefixStep<T>(s: seq<T>, i: nat)
    requires i < |s|
    ensures s[..i + 1] == s[..i] + [s[i]]
  {
  }

  /** The template entries among the first `n` names. */
  function Seeded(obj: Template, n: nat): map<string, Value>
    requires obj.WellFormed() && n <= |obj.names|
  {
    map k | k in obj.names[..n] :: obj.values[k]
  }

  /** Seeding one more name extends the seeded entries by that name. */
  lemma SeededStep(obj: Template, n: nat)
    requires obj.WellFormed() && n < |obj.names|
    ensures Seeded(obj, n)[obj.names[n] := obj.values[obj.names[n]]] == Seeded(obj, n + 1)
  {
  }

  /** Seeding every name yields the template's whole mapping. */
  lemma SeededAll(obj: Template)
    requires obj.WellFormed()
    ensures obj.names[..|obj.names|] == obj.names
    ensures Seeded(obj, |obj.names|) == obj.values
  {
  }

  /** What running the constructor on an object without own properties
      leaves behind: the accessor keys defined, the private store, whether
      the object got sealed, and whether the constructor threw. */
  datatype Construction = Construction(
    keys: seq<string>, store: map<string, Value>, sealed: bool, outcome: Outcome<DefineError>)

  /** The constructor visits the names in order and stops at the first
      function value, after seeding it but before defining it. */
  function Constructed(obj: Template): Construction
    requires obj.WellFormed()
  {
    match FirstMethod(obj, 0)
    case None => Construction(obj.names, obj.values, true, Pass)
    case Some(i) =>
      Construction(obj.names[..i], Seeded(obj, i + 1), false, Fail(MethodNotPermitted(obj.names[i])))
  }

  /** Construction stops at the first function value the names reach. */
  lemma ConstructedStopsAt(obj: Template, i: nat)
    requires obj.WellFormed() && i < |obj.names|
    requires FirstMethod(obj, i) == FirstMethod(obj, 0) && IsMethod(obj.values[obj.names[i]])
    ensures Constructed(obj) ==
      Construction(obj.names[..i], Seeded(obj, i + 1), false, Fail(MethodNotPermitted(obj.names[i])))
  {
  }

  /** The invariant of a typed object's state: every defined key has a
      template value that is not a function, and a stored value with the
      template value's classification. */
  ghost predicate Consistent(keys: seq<string>, template: map<string, Value>, store: map<string, Value>)
  {
    && (forall k :: k in keys ==> k in template && k in store)
    && (forall k :: k in keys ==> !IsMethod(template[k]))
    && (forall k :: k in keys ==> Classify(store[k]) == Classify(template[k]))
  }

  /** Without function values, construction defines exactly the template's
      names, in order, each reading back its template value, and seals. */
  lemma ConstructedWithoutMethods(obj: Template)
    requires obj.WellFormed()
    requires forall j :: 0 <= j < |obj.names| ==> !IsMethod(obj.values[obj.names[j]])
    ensures Constructed(obj) == Construction(obj.names, obj.values, true, Pass)
  {
  }

  /** With a function value, construction throws at the first one: every
      earlier name is defined and seeded, the offending name is seeded but
      not defined, no later name is defined or seeded, and nothing is sealed. */
  lemma ConstructedAtFirstMethod(obj: Template, i: nat)
    requires obj.WellFormed() && obj.Distinct() && i < |obj.names|
    requires IsMethod(obj.values[obj.names[i]])
    requires forall j :: 0 <= j < i ==> !IsMethod(obj.values[obj.names[j]])
    ensures Constructed(obj).outcome == Fail(MethodNotPermitted(obj.names[i]))
    ensures !Constructed(obj).sealed
    ensures Constructed(obj).keys == obj.names[..i]
    ensures forall j :: 0 <= j <= i ==>
      obj.names[j] in Constructed(obj).store && Constructed(obj).store[obj.names[j]] == obj.values[obj.names[j]]
    ensures forall j :: i < j < |obj.names| ==>
      obj.names[j] !in Constructed(obj).keys && obj.names[j] !in Constructed(obj).store
  {
    // the names up to `i` are seeded; no later name equals one of them
    assert FirstMethod(obj, 0) == Some(i);
    forall j | 0 <= j <= i
      ensures obj.names[j] in obj.names[..i + 1]
    {
      assert obj.names[..i + 1][j] == obj.names[j];
    }
    forall j | i < j < |obj.names|
      ensures obj.names[j] !in obj.names[..i + 1]
    {
      forall m | 0 <= m <= i
        ensures obj.names[m] != obj.names[j]
      {
      }
    }
  }

  /** Whatever the template, the state construction leaves satisfies the
      typed object's invariant. */
  lemma ConstructedConsistent(obj: Template)
    requires obj.WellFormed()
    ensures Consistent(Constructed(obj).keys, obj.values, Constructed(obj).store)
  {
  }

  /** How a guard rejection surfaces from the setter of `key`. */
  function Raised(key: string, r: Rejection): WriteError
  {
    match r
    case Mismatch(expected, actual) => NotAssignable(key, expected, actual)
    case NullLength => NullLengthRead
  }

  /** The setter of `key` given `value`: the error it raises, if any, and the
      store afterwards. A value is committed exactly when it has the
      classification of the key's (non-null) template value; a refused write
      leaves the store as it was, and a committed one changes only `key`. */
  function Write(template: map<string, Value>, store: map<string, Value>, key: string, value: Value)
    : (r: (Outcome<WriteError>, map<string, Value>))
    requires key in template
    ensures r.0 == Pass <==> template[key] != Null && Classify(value) == Classify(template[key])
    ensures r.0 == Pass ==> r.1 == store[key := value]
    ensures r.0.Fail? ==> r.1 == store
    ensures r.0 == Fail(NullLengthRead) <==>
      template[key] == Null || (template[key].Obj? && value == Null)
    ensures r.0.Fail? && r.0.error != NullLengthRead ==>
      && r.0.error.NotAssignable? && r.0.error.key == key
      && r.0.error.expected == Label(Classify(template[key]))
      && r.0.error.actual ==
        (if template[key].Obj? then Label(Classify(value)) else TypeOf(value))
      && r.0.error.expected != r.0.error.actual
  {
    match Guard(template[key], value)
    case Accept => (Pass, store[key := value])
    case Reject(rejection) => (Fail(Raised(key, rejection)), store)
  }

  /** The store after a series of property writes through the setters. */
  function Replay(template: map<string, Value>, store: map<string, Value>, writes: seq<(string, Value)>)
    : map<string, Value>
    requires forall w :: w in writes ==> w.0 in template
    decreases |writes|
  {
    if writes == [] then store
    else Replay(template, Write(template, store, writes[0].0, writes[0].1).1, writes[1..])
  }

  /** Any series of writes to defined keys keeps the typed object's invariant
      and leaves the store's key set as it was. */
  lemma {:induction false} ReplayConsistent(
    keys: seq<string>, template: map<string, Value>, store: map<string, Value>, writes: seq<(string, Value)>)
    requires Consistent(keys, template, store)
    requires forall w :: w in writes ==> w.0 in keys
    ensures Consistent(keys, template, Replay(template, store, writes))
    ensures Replay(template, store, writes).Keys == store.Keys
  {
    if writes != [] {
      var next := Write(template, store, writes[0].0, writes[0].1).1;
      assert writes[0] in writes;
      assert forall w :: w in writes[1..] ==> w in writes;
      ReplayConsistent(keys, template, next, writes[1..]);
    }
  }

  /** The object a typed object decorates: `this` of a `new` call, or the
      supplied context. Its fields are the closure state of the source:
      `template` is `obj`, `store` is the private `dataStore`, `keys` are the
      accessor properties defined on the object so far, and `sealed` records
      `Object.seal`. */
  class TypedObject {
    var template: map<string, Value>
    var keys: seq<string>
    var store: map<string, Value>
    var sealed: bool

    /** Every defined key has a template value that is not a function, and a
        stored value with the template value's classification. */
    ghost predicate Valid()
      reads this
    {
      Consistent(keys, template, store)
    }

    /** A fresh object with no own properties. */
    constructor ()
      ensures Valid()
      ensures template == map[] && keys == [] && store == map[] && !sealed
    {
      template, keys, store, sealed := map[], [], map[], false;
    }

    /** The `forEach` callback of the constructor for one template name:
        seed the store with the template value, refuse a function value, and
        otherwise define the key's accessor pair. */
    method DefineKey(key: string) returns (outcome: Outcome<DefineError>)
      requires key in template
      modifies this`keys, this`store
      ensures store == old(store)[key := template[key]]
      ensures outcome == Pass <==> !IsMethod(template[key])
      ensures outcome.Fail? ==> outcome.error == MethodNotPermitted(key)
      ensures keys == if outcome == Pass then old(keys) + [key] else old(keys)
    {
      store := store[key := template[key]];
      if TypeOf(template[key]) == "function" {
        return Fail(MethodNotPermitted(key));
      }
      keys := keys + [key];
      outcome := Pass;
    }

    /** The body of the `TypedObject` constructor run on this object: the
        callback for each template name in order, then the seal. */
    method Define(obj: Template) returns (outcome: Outcome<DefineError>)
      requires obj.WellFormed()
      requires keys == [] && !sealed
      modifies this
      ensures Valid()
      ensures template == obj.values
      ensures Construction(keys, store, sealed, outcome) == Constructed(obj)
    {
      template := obj.values;
      store := map[];
      var i := 0;
      while i < |obj.names|
        invariant 0 <= i <= |obj.names|
        invariant template == obj.values && !sealed
        invariant keys == obj.names[..i]
        invariant store == Seeded(obj, i)
        invariant FirstMethod(obj, i) == FirstMethod(obj, 0)
      {
        SeededStep(obj, i);
        outcome := DefineKey(obj.names[i]);
        if outcome.Fail? {
          ConstructedStopsAt(obj, i);
          ConstructedConsistent(obj);
          return;
        }
        PrefixStep(obj.names, i);
        i := i + 1;
      }
      SeededAll(obj);
      ConstructedConsistent(obj);
      sealed := true;
      outcome := Pass;
    }

    /** `new TypedObject(obj)`: a fresh, sealed typed object, or the
        construction error, in which case no object is returned. */
    static method Construct(obj: Template) returns (r: Result<TypedObject, DefineError>)
      requires obj.WellFormed()
      ensures r.Success? <==>
        forall j :: 0 <= j < |obj.names| ==> !IsMethod(obj.values[obj.names[j]])
      ensures r.Success? ==>
        && fresh(r.value) && r.value.Valid() && r.value.sealed
        && r.value.template == obj.values
        && r.value.keys == obj.names && r.value.store == obj.values
      ensures r.Failure? ==> Constructed(obj).outcome == Fail(r.error)
    {
      var self := new TypedObject();
      var outcome := self.Define(obj);
      match outcome
      case Pass => r := Success(self);
      case Fail(e) => r := Failure(e);
    }

    /** The getter of a defined key: the current stored value, which always
        has the classification of the key's template value. */
    function Get(key: string): (v: Value)
      reads this
      requires Valid() && key in keys
      ensures Classify(v) == Classify(template[key])
    {
      store[key]
    }

    /** The setter of a defined key, committing or refusing the value as
        `Write` says. */
    method Set(key: string, value: Value) returns (outcome: Outcome<WriteError>)
      requires Valid() && key in keys
      modifies this`store
      ensures Valid()
      ensures (outcome, store) == Write(template, old(store), key, value)
    {
      var verdict := Guard(template[key], value);
      match verdict
      case Accept =>
        store := store[key := value];
        outcome := Pass;
      case Reject(rejection) =>
        outcome := Fail(Raised(key, rejection));
    }

    /** A property write `self[key] = value` on a constructed object: a
        defined key goes through its setter; any other key cannot be added to
        the sealed object, and nothing changes. */
    method Assign(key: string, value: Value) returns (outcome: Outcome<WriteError>)
      requires Valid() && sealed
      modifies this`store
      ensures Valid()
      ensures key !in keys ==> outcome == Fail(NotExtensible(key)) && store == old(store)
      ensures key in keys ==> (outcome, store) == Write(template, old(store), key, value)
    {
      if key in keys {
        outcome := Set(key, value);
      } else {
        outcome := Fail(NotExtensible(key));
      }
    }

    /** `toObject`: a plain mapping from every own property name to what its
        getter currently returns. It changes nothing. */
    method ToObject() returns (output: map<string, Value>)
      requires Valid()
      ensures forall k :: k in output <==> k in keys
      ensures forall k :: k in output ==> output[k] == Get(k)
    {
      output := map[];
      var i := 0;
      while i < |keys|
        invariant 0 <= i <= |keys|
        invariant forall k :: k in output <==> k in keys[..i]
        invariant forall k :: k in output ==> k in keys && output[k] == Get(k)
      {
        assert keys[..i + 1] == keys[..i] + [keys[i]];
        output := output[keys[i] := Get(keys[i])];
        i := i + 1;
      }
      assert keys[..i] == keys;
    }
  }
}
