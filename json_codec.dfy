/**
 * The JSON codec for dataclasses of `pyjobshop/json.py`. The encoder turns a
 * dataclass instance into a JSON object holding `"__class__"` (the class
 * name) and the values of the fields that `__init__` takes. The decoder's
 * object hook turns such an object back into a constructor call of the
 * registered class with those fields as keyword arguments. Python's JSON
 * parser and printer around the two hooks are not modelled: a JSON object is
 * a `map<string, Value>` whose values are already decoded.
 */
module JsonCodec {
  import opened Wrappers

  /** A dataclass field: its name and whether `__init__` takes it (`init=True`). */
  datatype FieldSpec = FieldSpec(name: string, init: bool)

  /** A class: its `__name__`, its dataclass fields in declaration order, and whether it is a dataclass. */
  datatype ClassDef = ClassDef(name: string, fields: seq<FieldSpec>, isDataclass: bool)

  /** The Python values the two hooks see: JSON values, and instances of classes with their attributes. */
  datatype Value =
    | Null
    | Bool(b: bool)
    | Int(i: int)
    | Str(s: string)
    | List(items: seq<Value>)
    | Dict(entries: map<string, Value>)
    | Instance(cls: ClassDef, attrs: map<string, Value>)

  /** The exceptions of the codec, in the order the source raises them. */
  datatype JsonError =
    | NotSerializable           // TypeError of `json.JSONEncoder.default`
    | BadClassName              // ValueError: `__class__` is not a string
    | NotRegistered(name: string)  // TypeError: unknown class name
    | MissingField(field: string)  // ValueError: an init field has no value
    | Extraneous(keys: set<string>)  // ValueError: keys left over after the init fields
    | DuplicateName(name: string)  // ValueError of `_build_serializable_classes_dict`
    | NotADataclass(name: string)  // TypeError of `_build_serializable_classes_dict`

  /** What the object hook returns: the dict itself, the delegate's object, or the call `cls(**kwargs)`. */
  datatype Hooked =
    | AsDict(entries: map<string, Value>)
    | Delegated(v: Value)
    | Construct(cls: ClassDef, kwargs: map<string, Value>)

  /** The key holding the class name. */
  const ClassKey: string := "__class__"

  /** The names of the fields with `init=True`, in declaration order. */
  function InitNames(fields: seq<FieldSpec>): (r: seq<string>)
    ensures forall n :: n in r <==> exists f :: f in fields && f.init && f.name == n
  {
    if fields == [] then []
    else (if fields[0].init then [fields[0].name] else []) + InitNames(fields[1..])
  }

  /** No name occurs twice. */
  predicate Distinct(names: seq<string>)
  {
    forall i, j :: 0 <= i < j < |names| ==> names[i] != names[j]
  }

  /** Every init field of the instance has an attribute to read. */
  predicate HasInitAttrs(cls: ClassDef, attrs: map<string, Value>)
  {
    forall n :: n in InitNames(cls.fields) ==> n in attrs
  }

  /** The keyword arguments naming each of `names` with its value in `m`. */
  function Args(names: seq<string>, m: map<string, Value>): map<string, Value>
    requires forall n :: n in names ==> n in m
  {
    map n | n in names :: m[n]
  }

  // ---------------------------------------------------------------------------
  // Encoding
  // ---------------------------------------------------------------------------

  /**
   * `JSONDataclassEncoder.default`: a dataclass instance becomes the object
   * holding its class name under `"__class__"` and then each init field; any
   * other value goes to the base encoder, which raises `TypeError`.
   */
  function Default(obj: Value): (r: Result<map<string, Value>, JsonError>)
    requires obj.Instance? && obj.cls.isDataclass ==> HasInitAttrs(obj.cls, obj.attrs)
    ensures r.Ok? <==> obj.Instance? && obj.cls.isDataclass
    ensures r.Err? ==> r.error == NotSerializable
    ensures r.Ok? ==> r.value.Keys == {ClassKey} + (set n | n in InitNames(obj.cls.fields))
    ensures r.Ok? ==> forall n :: n in InitNames(obj.cls.fields) ==> r.value[n] == obj.attrs[n]
    ensures r.Ok? && ClassKey !in InitNames(obj.cls.fields) ==> r.value[ClassKey] == Str(obj.cls.name)
  {
    if obj.Instance? && obj.cls.isDataclass then
      Ok(map[ClassKey := Str(obj.cls.name)] + Args(InitNames(obj.cls.fields), obj.attrs))
    else
      Err(NotSerializable)
  }

  // ---------------------------------------------------------------------------
  // Decoding
  // ---------------------------------------------------------------------------

  /**
   * Popping the init fields one by one out of `rest` into `kwargs`; a name
   * that is no longer there raises the missing-field error.
   */
  function PopFields(rest: map<string, Value>, names: seq<string>, kwargs: map<string, Value>)
    : Result<(map<string, Value>, map<string, Value>), JsonError>
    decreases |names|
  {
    if names == [] then Ok((rest, kwargs))
    else if names[0] !in rest then Err(MissingField(names[0]))
    else PopFields(rest - {names[0]}, names[1..], kwargs[names[0] := rest[names[0]]])
  }

  /** The delegate hook is absent or hands back the object it was given. */
  predicate NotReplaced(obj: map<string, Value>, delegate: Option<map<string, Value> -> Option<Value>>)
  {
    delegate.None? || delegate.value(obj).None?
  }

  /**
   * What `object_hook` returns for the JSON object `obj`, given the registry
   * `classes` and the delegate hook; a delegate returns `None` when it hands
   * back the very object it was given.
   */
  function Hook(obj: map<string, Value>, classes: map<string, ClassDef>,
                delegate: Option<map<string, Value> -> Option<Value>>): Result<Hooked, JsonError>
  {
    if !NotReplaced(obj, delegate) then Ok(Delegated(delegate.value(obj).value))
    else if ClassKey !in obj then Ok(AsDict(obj))
    else if !obj[ClassKey].Str? then Err(BadClassName)
    else if obj[ClassKey].s !in classes then Err(NotRegistered(obj[ClassKey].s))
    else
      var cls := classes[obj[ClassKey].s];
      match PopFields(obj - {ClassKey}, InitNames(cls.fields), map[])
      case Err(e) => Err(e)
      case Ok((rest, kwargs)) => if rest.Keys != {} then Err(Extraneous(rest.Keys)) else Ok(Construct(cls, kwargs))
  }

  /** `AbstractJSONDataclassDecoder.object_hook`. */
  method ObjectHook(obj: map<string, Value>, classes: map<string, ClassDef>,
                    delegate: Option<map<string, Value> -> Option<Value>>) returns (r: Result<Hooked, JsonError>)
    ensures r == Hook(obj, classes, delegate)
  {
    if delegate.Some? {
      var newObj := delegate.value(obj);
      if newObj.Some? {
        return Ok(Delegated(newObj.value));
      }
    }
    if ClassKey !in obj {
      return Ok(AsDict(obj));
    }
    var classname := obj[ClassKey];
    if !classname.Str? {
      return Err(BadClassName);
    }
    if classname.s !in classes {
      return Err(NotRegistered(classname.s));
    }
    var cls := classes[classname.s];
    var popped := PopInitFields(obj - {ClassKey}, InitNames(cls.fields));
    if popped.Err? {
      return Err(popped.error);
    }
    var (rest, kwargs) := popped.value;
    if rest.Keys != {} {
      return Err(Extraneous(rest.Keys));
    }
    return Ok(Construct(cls, kwargs));
  }

  /** The loop of `object_hook` that pops each init field out of the object into the keyword arguments. */
  method PopInitFields(obj: map<string, Value>, names: seq<string>)
    returns (r: Result<(map<string, Value>, map<string, Value>), JsonError>)
    ensures r == PopFields(obj, names, map[])
  {
    var rest := obj;
    var kwargs: map<string, Value> := map[];
    var i: nat := 0;
    while i < |names|
      invariant i <= |names|
      invariant PopFields(rest, names[i..], kwargs) == PopFields(obj, names, map[])
    {
      var name := names[i];
      assert names[i..][0] == name && names[i..][1..] == names[i + 1..];
      if name !in rest {
        return Err(MissingField(name));
      }
      kwargs := kwargs[name := rest[name]];
      rest := rest - {name};
      i := i + 1;
    }
    assert names[i..] == [];
    return Ok((rest, kwargs));
  }

  /** A list is distinct exactly when its head is not in its tail and its tail is distinct. */
  lemma DistinctCons(names: seq<string>)
    requires names != []
    ensures Distinct(names) <==> names[0] !in names[1..] && Distinct(names[1..])
  {
    var tail := names[1..];
    if Distinct(names) {
      forall i, j | 0 <= i < j < |tail|
        ensures tail[i] != tail[j]
      {
        assert tail[i] == names[i + 1] && tail[j] == names[j + 1];
      }
    }
    if names[0] !in tail && Distinct(tail) {
      forall i, j | 0 <= i < j < |names|
        ensures names[i] != names[j]
      {
        assert names[j] == tail[j - 1];
        if i > 0 {
          assert names[i] == tail[i - 1];
        }
      }
    }
  }

  /** Popping succeeds exactly when every name is present and none repeats. */
  lemma {:induction false} PopFieldsOk(rest: map<string, Value>, names: seq<string>, kwargs: map<string, Value>)
    ensures PopFields(rest, names, kwargs).Ok? <==> Distinct(names) && forall n :: n in names ==> n in rest
    decreases |names|
  {
    if names != [] {
      var n0 := names[0];
      var tail := names[1..];
      assert n0 in names;
      if n0 in rest {
        PopFieldsOk(rest - {n0}, tail, kwargs[n0 := rest[n0]]);
        DistinctCons(names);
        assert forall n :: n in names <==> n == n0 || n in tail;
      }
    }
  }

  /**
   * A successful pop leaves in `rest` exactly the keys not among the names,
   * and adds to `kwargs` each name with its value in `rest`.
   */
  lemma {:induction false} PopFieldsValue(rest: map<string, Value>, names: seq<string>, kwargs: map<string, Value>)
    requires PopFields(rest, names, kwargs).Ok?
    ensures Distinct(names) && forall n :: n in names ==> n in rest
    ensures var (left, args) := PopFields(rest, names, kwargs).value;
            && (forall k :: k in left <==> k in rest && k !in names)
            && (forall k :: k in left ==> left[k] == rest[k])
            && (forall k :: k in args <==> k in kwargs || k in names)
            && (forall k :: k in names ==> args[k] == rest[k])
            && (forall k :: k in kwargs && k !in names ==> args[k] == kwargs[k])
    decreases |names|
  {
    PopFieldsOk(rest, names, kwargs);
    if names != [] {
      var n0 := names[0];
      var tail := names[1..];
      PopFieldsValue(rest - {n0}, tail, kwargs[n0 := rest[n0]]);
      DistinctCons(names);
      assert forall n :: n in names <==> n == n0 || n in tail;
    }
  }

  /** A failed pop names one of the fields as missing. */
  lemma {:induction false} PopFieldsErr(rest: map<string, Value>, names: seq<string>, kwargs: map<string, Value>)
    requires PopFields(rest, names, kwargs).Err?
    ensures exists k :: 0 <= k < |names| && PopFields(rest, names, kwargs).error == MissingField(names[k])
    decreases |names|
  {
    if names[0] in rest {
      var tail := names[1..];
      PopFieldsErr(rest - {names[0]}, tail, kwargs[names[0] := rest[names[0]]]);
      var k :| 0 <= k < |tail| && PopFields(rest, names, kwargs).error == MissingField(tail[k]);
      assert names[k + 1] == tail[k];
    }
  }

  /** The object names a registered class and the delegate hook hands it back. */
  predicate Registered(obj: map<string, Value>, classes: map<string, ClassDef>,
                       delegate: Option<map<string, Value> -> Option<Value>>)
  {
    NotReplaced(obj, delegate) && ClassKey in obj && obj[ClassKey].Str? && obj[ClassKey].s in classes
  }

  /** Every name is a key of the object other than `"__class__"`. */
  predicate Complete(obj: map<string, Value>, names: seq<string>)
  {
    forall n :: n in names ==> n in obj && n != ClassKey
  }

  /** The keys an object that holds exactly the init fields `names` has. */
  function ExpectedKeys(names: seq<string>): set<string>
  {
    {ClassKey} + (set n | n in names)
  }

  /** A registered class whose init fields are not all in the object raises the missing-field error. */
  lemma HookMissing(obj: map<string, Value>, classes: map<string, ClassDef>,
                    delegate: Option<map<string, Value> -> Option<Value>>)
    requires Registered(obj, classes, delegate)
    requires !Complete(obj, InitNames(classes[obj[ClassKey].s].fields))
    ensures Hook(obj, classes, delegate).Err? && Hook(obj, classes, delegate).error.MissingField?
  {
    var names := InitNames(classes[obj[ClassKey].s].fields);
    var rest0 := obj - {ClassKey};
    PopFieldsOk(rest0, names, map[]);
    assert !(forall n :: n in names ==> n in rest0);
    PopFieldsErr(rest0, names, map[]);
  }

  /**
   * A registered class with distinct init names, all in the object, raises
   * the extraneous-values error exactly for the keys that are neither
   * `"__class__"` nor an init field, and otherwise is called with the
   * object's values for its init fields.
   */
  lemma HookComplete(obj: map<string, Value>, classes: map<string, ClassDef>,
                     delegate: Option<map<string, Value> -> Option<Value>>)
    requires Registered(obj, classes, delegate)
    requires Distinct(InitNames(classes[obj[ClassKey].s].fields))
    requires Complete(obj, InitNames(classes[obj[ClassKey].s].fields))
    ensures var names := InitNames(classes[obj[ClassKey].s].fields);
            Hook(obj, classes, delegate)
            == if obj.Keys == ExpectedKeys(names) then Ok(Construct(classes[obj[ClassKey].s], Args(names, obj)))
               else Err(Extraneous(obj.Keys - ExpectedKeys(names)))
  {
    var names := InitNames(classes[obj[ClassKey].s].fields);
    var rest0 := obj - {ClassKey};
    PopFieldsOk(rest0, names, map[]);
    PopFieldsValue(rest0, names, map[]);
    var (left, args) := PopFields(rest0, names, map[]).value;
    assert left.Keys == obj.Keys - ExpectedKeys(names);
    assert left.Keys == {} <==> obj.Keys == ExpectedKeys(names);
    assert args == Args(names, obj);
  }

  /**
   * For a registered class with distinct init names and no delegate
   * replacement, the hook builds the class exactly when the object holds
   * every init field (none named `"__class__"`) and nothing else.
   */
  lemma HookDecodes(obj: map<string, Value>, classes: map<string, ClassDef>,
                    delegate: Option<map<string, Value> -> Option<Value>>)
    requires Registered(obj, classes, delegate)
    requires Distinct(InitNames(classes[obj[ClassKey].s].fields))
    ensures var names := InitNames(classes[obj[ClassKey].s].fields);
            Hook(obj, classes, delegate).Ok? <==> Complete(obj, names) && obj.Keys == ExpectedKeys(names)
  {
    if Complete(obj, InitNames(classes[obj[ClassKey].s].fields)) {
      HookComplete(obj, classes, delegate);
    } else {
      HookMissing(obj, classes, delegate);
    }
  }

  /**
   * Round trip: decoding what `Default` encodes, with the instance's class
   * registered under its name, calls that class with exactly the instance's
   * init-field values.
   */
  lemma RoundTrip(obj: Value, classes: map<string, ClassDef>, delegate: Option<map<string, Value> -> Option<Value>>)
    requires obj.Instance? && obj.cls.isDataclass && HasInitAttrs(obj.cls, obj.attrs)
    requires Distinct(InitNames(obj.cls.fields)) && ClassKey !in InitNames(obj.cls.fields)
    requires obj.cls.name in classes && classes[obj.cls.name] == obj.cls
    requires NotReplaced(Default(obj).value, delegate)
    ensures Hook(Default(obj).value, classes, delegate)
            == Ok(Construct(obj.cls, Args(InitNames(obj.cls.fields), obj.attrs)))
  {
    var m := Default(obj).value;
    var names := InitNames(obj.cls.fields);
    assert m[ClassKey] == Str(obj.cls.name);
    assert Registered(m, classes, delegate);
    assert Complete(m, names);
    assert m.Keys == ExpectedKeys(names);
    HookComplete(m, classes, delegate);
    assert Args(names, m) == Args(names, obj.attrs);
  }

  // ---------------------------------------------------------------------------
  // The registry of decodable classes
  // ---------------------------------------------------------------------------

  /**
   * What `_build_serializable_classes_dict` returns for `classes` when the
   * dictionary already holds `m`: each class in turn is rejected if its name
   * is taken, then if it is not a dataclass, and is otherwise added.
   */
  function RegistryFrom(classes: seq<ClassDef>, m: map<string, ClassDef>): Result<map<string, ClassDef>, JsonError>
    decreases |classes|
  {
    if classes == [] then Ok(m)
    else if classes[0].name in m then Err(DuplicateName(classes[0].name))
    else if !classes[0].isDataclass then Err(NotADataclass(classes[0].name))
    else RegistryFrom(classes[1..], m[classes[0].name := classes[0]])
  }

  /** `_build_serializable_classes_dict`; `JSONDataclassDecoder.__init__` and `decoder_factory` build their registry with it. */
  method BuildRegistry(classes: seq<ClassDef>) returns (r: Result<map<string, ClassDef>, JsonError>)
    ensures r == RegistryFrom(classes, map[])
  {
    var result: map<string, ClassDef> := map[];
    var i: nat := 0;
    while i < |classes|
      invariant i <= |classes|
      invariant RegistryFrom(classes[i..], result) == RegistryFrom(classes, map[])
    {
      var cls := classes[i];
      assert classes[i..][0] == cls && classes[i..][1..] == classes[i + 1..];
      if cls.name in result {
        return Err(DuplicateName(cls.name));
      }
      if !cls.isDataclass {
        return Err(NotADataclass(cls.name));
      }
      result := result[cls.name := cls];
      i := i + 1;
    }
    assert classes[i..] == [];
    return Ok(result);
  }

  /** No two classes share a name. */
  predicate DistinctClassNames(classes: seq<ClassDef>)
  {
    forall i, j :: 0 <= i < j < |classes| ==> classes[i].name != classes[j].name
  }

  /** Every class is a dataclass whose name `m` does not hold yet. */
  predicate Fresh(classes: seq<ClassDef>, m: map<string, ClassDef>)
  {
    forall c :: c in classes ==> c.isDataclass && c.name !in m
  }

  /** Distinct names split into the head's name, absent from the tail, and distinct tail names. */
  lemma DistinctClassNamesCons(classes: seq<ClassDef>)
    requires classes != []
    ensures DistinctClassNames(classes)
            <==> (forall c :: c in classes[1..] ==> c.name != classes[0].name) && DistinctClassNames(classes[1..])
  {
    var tail := classes[1..];
    if DistinctClassNames(classes) {
      forall c | c in tail
        ensures c.name != classes[0].name
      {
        var j :| 0 <= j < |tail| && tail[j] == c;
        assert classes[j + 1] == c;
      }
      forall i, j | 0 <= i < j < |tail|
        ensures tail[i].name != tail[j].name
      {
        assert tail[i] == classes[i + 1] && tail[j] == classes[j + 1];
      }
    }
    if (forall c :: c in tail ==> c.name != classes[0].name) && DistinctClassNames(tail) {
      forall i, j | 0 <= i < j < |classes|
        ensures classes[i].name != classes[j].name
      {
        assert classes[j] == tail[j - 1];
        if i > 0 {
          assert classes[i] == tail[i - 1];
        }
      }
    }
  }

  /** The registry is built exactly when the names are distinct and new, and every class is a dataclass. */
  lemma {:induction false} RegistryFromOk(classes: seq<ClassDef>, m: map<string, ClassDef>)
    ensures RegistryFrom(classes, m).Ok? <==> DistinctClassNames(classes) && Fresh(classes, m)
    decreases |classes|
  {
    if classes != [] {
      var c0 := classes[0];
      var tail := classes[1..];
      assert c0 in classes;
      if c0.name !in m && c0.isDataclass {
        RegistryFromOk(tail, m[c0.name := c0]);
        DistinctClassNamesCons(classes);
        assert forall c :: c in classes <==> c == c0 || c in tail;
      }
    }
  }

  /** A built registry keeps `m` and maps each class's name to the class, and holds no other name. */
  lemma {:induction false} RegistryFromValue(classes: seq<ClassDef>, m: map<string, ClassDef>)
    requires RegistryFrom(classes, m).Ok?
    ensures RegistryFrom(classes, m).value.Keys == m.Keys + (set c | c in classes :: c.name)
    ensures forall n :: n in m ==> RegistryFrom(classes, m).value[n] == m[n]
    ensures forall c :: c in classes ==> RegistryFrom(classes, m).value[c.name] == c
    decreases |classes|
  {
    if classes != [] {
      var c0 := classes[0];
      var tail := classes[1..];
      RegistryFromValue(tail, m[c0.name := c0]);
      RegistryFromOk(classes, m);
      assert forall c :: c in classes <==> c == c0 || c in tail;
      assert (set c | c in classes :: c.name) == {c0.name} + (set c | c in tail :: c.name);
    }
  }

  /** A failure names a class that reuses a name already taken or is not a dataclass. */
  lemma {:induction false} RegistryFromErr(classes: seq<ClassDef>, m: map<string, ClassDef>)
    requires RegistryFrom(classes, m).Err?
    ensures exists k :: 0 <= k < |classes| &&
              ((RegistryFrom(classes, m).error == DuplicateName(classes[k].name)
                && (classes[k].name in m || exists j :: 0 <= j < k && classes[j].name == classes[k].name))
               || (RegistryFrom(classes, m).error == NotADataclass(classes[k].name) && !classes[k].isDataclass))
    decreases |classes|
  {
    var c0 := classes[0];
    if c0.name !in m && c0.isDataclass {
      var tail := classes[1..];
      var m1 := m[c0.name := c0];
      RegistryFromErr(tail, m1);
      var k :| 0 <= k < |tail| &&
               ((RegistryFrom(tail, m1).error == DuplicateName(tail[k].name)
                 && (tail[k].name in m1 || exists j :: 0 <= j < k && tail[j].name == tail[k].name))
                || (RegistryFrom(tail, m1).error == NotADataclass(tail[k].name) && !tail[k].isDataclass));
      assert classes[k + 1] == tail[k];
      if RegistryFrom(tail, m1).error == DuplicateName(tail[k].name) {
        if tail[k].name in m1 && tail[k].name !in m {
          assert classes[0].name == classes[k + 1].name;
        } else if tail[k].name !in m1 {
          var j :| 0 <= j < k && tail[j].name == tail[k].name;
          assert classes[j + 1] == tail[j];
        }
      }
    }
  }

  /**
   * `_build_serializable_classes_dict` succeeds exactly when the class names
   * are distinct and every class is a dataclass; the dictionary then maps
   * each class's name to the class and holds no other name.
   */
  lemma RegistryMeaning(classes: seq<ClassDef>)
    ensures RegistryFrom(classes, map[]).Ok? <==> DistinctClassNames(classes) && forall c :: c in classes ==> c.isDataclass
    ensures RegistryFrom(classes, map[]).Ok? ==>
              && RegistryFrom(classes, map[]).value.Keys == (set c | c in classes :: c.name)
              && forall c :: c in classes ==> RegistryFrom(classes, map[]).value[c.name] == c
  {
    RegistryFromOk(classes, map[]);
    if RegistryFrom(classes, map[]).Ok? {
      RegistryFromValue(classes, map[]);
    }
  }
}
