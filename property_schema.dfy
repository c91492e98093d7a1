/**
 * PropertySchema: the validation schema for one named, typed property of an
 * object. Base validation (the required check and the rules, done by the
 * parent Schema) and type validation are not part of this model; they enter as
 * function parameters that return the results they would append.
 */
module Validate {
  import opened Wrappers
  import opened TypeCodes

  datatype ValidationResultType = Information | Warning | Error

  /** One finding, located by its dot-separated path. */
  datatype ValidationResult = ValidationResult(path: string, kind: ValidationResultType, code: string, message: string)

  /** Base validation: (required, rules, path, value) to the results it appends. */
  type BaseValidation<!R, !V> = (Option<bool>, Option<seq<R>>, string, V) -> seq<ValidationResult>

  /** Type validation: (path, declared type, value) to the results it appends.
      The declared type `P` is whatever the property was given: a type code, a
      type, a type name or a nested schema; only type validation looks inside it. */
  type TypeValidation<!P, !V> = (string, Option<P>, V) -> seq<ValidationResult>

  /** The caller's list of results, which validation appends to in place. */
  class ResultList {
    var items: seq<ValidationResult>

    constructor ()
      ensures items == []
    {
      items := [];
    }
  }

  /** The path of a property named `name` inside the value at `path`. */
  function EffectivePath(path: Option<string>, name: string): (p: string)
    ensures |name| <= |p| && p[|p| - |name|..] == name
    ensures path.None? || path == Some("") ==> p == name
    ensures path.Some? && path.value != "" ==>
      |p| == |path.value| + 1 + |name| && path.value + "." <= p && p[|path.value| + 1..] == name
  {
    if path.None? || |path.value| == 0 then name else path.value + "." + name
  }

  /** What validating `value` at `path` against the property appends: the base
      validation's results, then the type validation's, both at the composed path. */
  function PropertyValidation<R, P, V>(required: Option<bool>, rules: Option<seq<R>>, name: string,
                                       valueType: Option<P>, path: Option<string>, value: V,
                                       base: BaseValidation<R, V>, typeCheck: TypeValidation<P, V>): seq<ValidationResult>
  {
    var p := EffectivePath(path, name);
    base(required, rules, p, value) + typeCheck(p, valueType, value)
  }

  class PropertySchema<R, P> {
    var required: Option<bool>
    var rules: Option<seq<R>>
    var name: string
    var valueType: Option<P>

    /** `PropertySchema(name, value_type, required, rules)`: the required flag and
        the rules go to the base schema, the name and type are kept here. */
    constructor (name: string, valueType: Option<P> := None,
                 required: Option<bool> := None, rules: Option<seq<R>> := None)
      ensures this.name == name && this.valueType == valueType
      ensures this.required == required && this.rules == rules
    {
      this.required := required;
      this.rules := rules;
      this.name := name;
      this.valueType := valueType;
    }

    method GetName() returns (n: string)
      ensures n == name
    {
      n := name;
    }

    method SetName(value: string)
      modifies this
      ensures name == value
      ensures valueType == old(valueType) && required == old(required) && rules == old(rules)
    {
      name := value;
    }

    method GetType() returns (t: Option<P>)
      ensures t == valueType
    {
      t := valueType;
    }

    method SetType(value: Option<P>)
      modifies this
      ensures valueType == value
      ensures name == old(name) && required == old(required) && rules == old(rules)
    {
      valueType := value;
    }

    /** `_perform_validation(path, value, results)`: compose the path, then let
        base validation and type validation append to `results`, in that order. */
    method PerformValidation<V>(path: Option<string>, value: V, results: ResultList,
                                base: BaseValidation<R, V>, typeCheck: TypeValidation<P, V>)
      modifies results
      ensures results.items ==
        old(results.items) + base(required, rules, EffectivePath(path, name), value)
                           + typeCheck(EffectivePath(path, name), valueType, value)
      ensures results.items == old(results.items) + PropertyValidation(required, rules, name, valueType, path, value, base, typeCheck)
    {
      var p := EffectivePath(path, name);
      results.items := results.items + base(required, rules, p, value);
      results.items := results.items + typeCheck(p, valueType, value);
    }
  }

  // ---------------------------------------------------------------------------
  // Properties of path composition and of the call order

  /** Different properties of the same object get different paths. */
  lemma {:induction false} EffectivePathInjective(path: Option<string>, a: string, b: string)
    requires EffectivePath(path, a) == EffectivePath(path, b)
    ensures a == b
  {
    if path.Some? && path.value != "" {
      var n := |path.value| + 1;
      assert a == EffectivePath(path, a)[n..];
    }
  }

  /** Paths chain: the property `zip` of the property `address` is at `address.zip`. */
  lemma NestedPathExample()
    ensures EffectivePath(Some(EffectivePath(Some(""), "address")), "zip") == "address.zip"
    ensures EffectivePath(None, "id") == "id"
  {
  }

  /** Results already in the list stay at its head; base results come next, then
      type results. */
  lemma {:induction false} ValidationOrder<R, P, V>(old_: seq<ValidationResult>, required: Option<bool>, rules: Option<seq<R>>,
                                                   name: string, valueType: Option<P>,
                                                   path: Option<string>, value: V,
                                                   base: BaseValidation<R, V>, typeCheck: TypeValidation<P, V>)
    ensures var all := old_ + PropertyValidation(required, rules, name, valueType, path, value, base, typeCheck);
      var nb := |base(required, rules, EffectivePath(path, name), value)|;
      && all[..|old_|] == old_
      && all[|old_|..|old_| + nb] == base(required, rules, EffectivePath(path, name), value)
      && all[|old_| + nb..] == typeCheck(EffectivePath(path, name), valueType, value)
  {
    var b := base(required, rules, EffectivePath(path, name), value);
    var t := typeCheck(EffectivePath(path, name), valueType, value);
    assert old_ + PropertyValidation(required, rules, name, valueType, path, value, base, typeCheck) == old_ + b + t;
  }

  /** A collaborator that places every result it produces at the path it is given. */
  ghost predicate BaseAtPath<R(!new), V(!new)>(base: BaseValidation<R, V>) {
    forall required, rules, p, value, i {:trigger base(required, rules, p, value)[i]} ::
      0 <= i < |base(required, rules, p, value)| ==> base(required, rules, p, value)[i].path == p
  }

  ghost predicate TypeAtPath<P(!new), V(!new)>(typeCheck: TypeValidation<P, V>) {
    forall p, t, value, i {:trigger typeCheck(p, t, value)[i]} ::
      0 <= i < |typeCheck(p, t, value)| ==> typeCheck(p, t, value)[i].path == p
  }

  /** Both collaborators receive the same composed path: when each places its
      results at the path it receives, every new result is at the property's path. */
  lemma {:induction false} ResultsAtPropertyPath<R(!new), P(!new), V(!new)>(required: Option<bool>, rules: Option<seq<R>>,
                                                       name: string, valueType: Option<P>,
                                                       path: Option<string>, value: V,
                                                       base: BaseValidation<R, V>, typeCheck: TypeValidation<P, V>)
    requires BaseAtPath(base) && TypeAtPath(typeCheck)
    ensures forall r: ValidationResult :: r in PropertyValidation(required, rules, name, valueType, path, value, base, typeCheck) ==>
      r.path == EffectivePath(path, name)
  {
    var p := EffectivePath(path, name);
    var b := base(required, rules, p, value);
    var t := typeCheck(p, valueType, value);
    forall r: ValidationResult | r in b + t ensures r.path == p {
      var i :| 0 <= i < |b + t| && (b + t)[i] == r;
      if i < |b| { assert b[i] == r; } else { assert t[i - |b|] == r; }
    }
  }

  // ---------------------------------------------------------------------------
  // Stand-in collaborators for the documented example: the parent schema's
  // required check (with no rules) and a type check by type code. Neither is
  // part of the repository's core; they only make the example concrete.

  /** Declared types of the stand-in type check: a type code, or a type name. */
  datatype PropertyType = ByCode(code: TypeCode) | ByName(typeName: string)

  /** Values of the documented example; `Null` is Python's None (an absent property). */
  datatype Value = Null | Text(text: string) | Int(number: int) | Bool(flag: bool)

  function TypeCodeOf(v: Value): TypeCode {
    match v
    case Null => Unknown
    case Text(_) => String
    case Int(_) => Integer
    case Bool(_) => Boolean
  }

  function TypeNameOf(v: Value): string {
    match v
    case Null => "NoneType"
    case Text(_) => "str"
    case Int(_) => "int"
    case Bool(_) => "bool"
  }

  function RequiredCheck<R>(required: Option<bool>, rules: Option<seq<R>>, path: string, value: Value): seq<ValidationResult> {
    if required == Some(true) && value.Null? then [ValidationResult(path, Error, "VALUE_IS_NULL", "value is required")]
    else []
  }

  function TypeCheck(path: string, valueType: Option<PropertyType>, value: Value): seq<ValidationResult> {
    if value.Null? || valueType.None? then []
    else if (match valueType.value
             case ByCode(c) => c == TypeCodeOf(value)
             case ByName(n) => n == TypeNameOf(value)) then []
    else [ValidationResult(path, Error, "TYPE_MISMATCH", "value type does not match")]
  }

  /** `PropertySchema("id", TypeCode.String)` inside an object schema (root path ""):
      absent and string values give no results, an integer gives one type mismatch;
      made required, an absent value gives one required result at `id`. */
  lemma DocumentedExample<R>()
    ensures PropertyValidation(None, None, "id", Some(ByCode(String)), Some(""), Null, RequiredCheck<R>, TypeCheck) == []
    ensures PropertyValidation(None, None, "id", Some(ByCode(String)), Some(""), Text("1"), RequiredCheck<R>, TypeCheck) == []
    ensures var rs := PropertyValidation(None, None, "id", Some(ByCode(String)), Some(""), Int(1), RequiredCheck<R>, TypeCheck);
      |rs| == 1 && rs[0].path == "id" && rs[0].code == "TYPE_MISMATCH"
    ensures var rs := PropertyValidation(Some(true), None, "id", Some(ByCode(String)), Some(""), Null, RequiredCheck<R>, TypeCheck);
      |rs| == 1 && rs[0].path == "id" && rs[0].code == "VALUE_IS_NULL"
    ensures var rs := PropertyValidation(Some(true), None, "zip", Some(ByCode(String)), Some("address"), Null, RequiredCheck<R>, TypeCheck);
      |rs| == 1 && rs[0].path == "address.zip"
  {
    assert EffectivePath(Some("address"), "zip") == "address.zip";
  }
}
