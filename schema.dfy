/** A subset of JSON-Schema validation: object schemas with required fields, properties and
    closed objects, array schemas with length bounds and an item schema, the boolean, number
    and string types, and enumerations. A schema and an instance are Python values. */
module Schema {
  import opened Text
  import opened Values

  const TypeKey := "type"
  const PropertiesKey := "properties"
  const RequiredKey := "required"
  const AdditionalKey := "additionalProperties"
  const MinItemsKey := "minItems"
  const MaxItemsKey := "maxItems"
  const ItemsKey := "items"
  const EnumKey := "enum"
  const ObjectType := "object"
  const ArrayType := "array"
  const BooleanType := "boolean"
  const NumberType := "number"
  const StringType := "string"
  const RootName := "<root>"

  /** `schema.get("type")` */
  function TypeOf(s: map<string, Value>): Value {
    Get(s, TypeKey)
  }

  /** The type is "object", or it is missing (or null) and there are properties. */
  predicate IsObjectSchema(s: map<string, Value>) {
    TypeOf(s) == Str(ObjectType) || (TypeOf(s).Null? && PropertiesKey in s)
  }

  predicate IsArraySchema(s: map<string, Value>) {
    !IsObjectSchema(s) && TypeOf(s) == Str(ArrayType)
  }

  /** `schema.get("additionalProperties", True)`, as a truth value. */
  predicate AdditionalAllowed(s: map<string, Value>) {
    AdditionalKey !in s || Truthy(s[AdditionalKey])
  }

  /** A list whose elements are all strings. */
  predicate AllStrings(xs: seq<Value>) {
    forall i :: 0 <= i < |xs| ==> xs[i].Str?
  }

  /** The shape of schema the validator is written for: a dict whose keywords, for the kind
      of schema it is, hold values of the kind the validator uses them as. A schema of
      another shape makes Python raise a `TypeError` or an `AttributeError`. */
  predicate WellFormed(schema: Value)
    decreases schema
  {
    && schema.Dict?
    && var s := schema.entries;
    && (IsObjectSchema(s) ==>
      && (RequiredKey in s ==> s[RequiredKey].List? && AllStrings(s[RequiredKey].items))
      && (PropertiesKey in s ==> (s[PropertiesKey].Dict?
        && forall k :: k in s[PropertiesKey].entries ==> WellFormed(s[PropertiesKey].entries[k]))))
    && (IsArraySchema(s) ==>
      && (Get(s, MinItemsKey).Null? || IsNumber(Get(s, MinItemsKey)))
      && (Get(s, MaxItemsKey).Null? || IsNumber(Get(s, MaxItemsKey)))
      && (ItemsKey in s && Truthy(s[ItemsKey]) ==> WellFormed(s[ItemsKey])))
    && (!IsObjectSchema(s) && !IsArraySchema(s) && EnumKey in s ==> s[EnumKey].List?)
  }

  /** `schema.get("required", [])` */
  function Required(s: map<string, Value>): seq<Value> {
    if RequiredKey in s && s[RequiredKey].List? then s[RequiredKey].items else []
  }

  /** `schema.get("properties", {})` */
  function Properties(s: map<string, Value>): map<string, Value> {
    if PropertiesKey in s && s[PropertiesKey].Dict? then s[PropertiesKey].entries else map[]
  }

  /** The item schema, when it is truthy. */
  function ItemSchema(s: map<string, Value>): Option<Value> {
    if ItemsKey in s && Truthy(s[ItemsKey]) then Some(s[ItemsKey]) else None
  }

  /** `len(instance) >= min_items` when a minimum is given. */
  predicate MinOk(n: nat, bound: Value)
    requires bound.Null? || IsNumber(bound)
  {
    bound.Null? || n as real >= AsReal(bound)
  }

  /** `len(instance) <= max_items` when a maximum is given. */
  predicate MaxOk(n: nat, bound: Value)
    requires bound.Null? || IsNumber(bound)
  {
    bound.Null? || n as real <= AsReal(bound)
  }

  /** `instance in schema["enum"]` when the schema has an enumeration. */
  predicate EnumOk(instance: Value, s: map<string, Value>)
    requires EnumKey in s ==> s[EnumKey].List?
  {
    EnumKey !in s || InList(instance, s[EnumKey].items)
  }

  /** `_validate(instance, schema, path)` returns without raising; the path only shapes the
      messages, so `validate(instance, schema)` is the same test from the root. */
  predicate Valid(instance: Value, schema: Value)
    requires WellFormed(schema)
    decreases schema
  {
    var s := schema.entries;
    if IsObjectSchema(s) then
      && instance.Dict?
      && (forall i :: 0 <= i < |Required(s)| ==> Required(s)[i].s in instance.entries)
      && (forall k :: k in instance.entries && k in Properties(s) ==> Valid(instance.entries[k], Properties(s)[k]))
      && (!AdditionalAllowed(s) ==> instance.entries.Keys <= Properties(s).Keys)
    else if IsArraySchema(s) then
      && instance.List?
      && MinOk(|instance.items|, Get(s, MinItemsKey))
      && MaxOk(|instance.items|, Get(s, MaxItemsKey))
      && (ItemSchema(s).Some? ==> forall i :: 0 <= i < |instance.items| ==> Valid(instance.items[i], ItemSchema(s).value))
    else if TypeOf(s) == Str(BooleanType) then instance.Bool?
    else if TypeOf(s) == Str(NumberType) then IsNumber(instance)
    else if TypeOf(s) == Str(StringType) then instance.Str? && EnumOk(instance, s)
    else EnumOk(instance, s)
  }

  /** What one failed check of the validator reports, with the location its message names. */
  datatype Violation =
    | NotObject(location: string)
    | MissingField(location: string)
    | UnexpectedField(path: string, key: string)
    | NotArray(location: string)
    | TooFewItems(location: string)
    | TooManyItems(location: string)
    | NotBoolean(location: string)
    | NotNumber(location: string)
    | NotString(location: string)
    | NotInEnum(location: string)

  /** The path of a property: `f"{path}.{key}" if path else key`. */
  function Child(path: string, key: string): (r: string)
    ensures path == [] ==> r == key
    ensures EndsWith(r, key)
  {
    if path != [] then path + "." + key else key
  }

  /** The path of an array item: `f"{path}[{idx}]"`. */
  function Index(path: string, i: nat): string {
    path + "[" + NatToString(i) + "]"
  }

  /** Every check that fails for `instance` under `schema` at `path`: a check that raises
      stops the checks after it, so a non-dict (non-list) instance reports only that. */
  function Violations(instance: Value, schema: Value, path: string): set<Violation>
    requires WellFormed(schema)
    decreases schema
  {
    var s := schema.entries;
    if IsObjectSchema(s) then
      if !instance.Dict? then {NotObject(if path == [] then RootName else path)}
      else
        var m := instance.entries;
        var props := Properties(s);
        (set i | 0 <= i < |Required(s)| && Required(s)[i].s !in m
          :: MissingField((if path == [] then [] else path + ".") + Required(s)[i].s))
        + (set k, v | k in m && k in props && v in Violations(m[k], props[k], Child(path, k)) :: v)
        + (if AdditionalAllowed(s) then {} else set k | k in m && k !in props :: UnexpectedField(path, k))
    else if IsArraySchema(s) then
      if !instance.List? then {NotArray(path)}
      else
        var xs := instance.items;
        (if MinOk(|xs|, Get(s, MinItemsKey)) then {} else {TooFewItems(path)})
        + (if MaxOk(|xs|, Get(s, MaxItemsKey)) then {} else {TooManyItems(path)})
        + (if ItemSchema(s).None? then {}
           else set i, v | 0 <= i < |xs| && v in Violations(xs[i], ItemSchema(s).value, Index(path, i)) :: v)
    else if TypeOf(s) == Str(BooleanType) then
      if instance.Bool? then {} else {NotBoolean(path)}
    else if TypeOf(s) == Str(NumberType) then
      if IsNumber(instance) then {} else {NotNumber(path)}
    else if TypeOf(s) == Str(StringType) then
      if !instance.Str? then {NotString(path)} else if EnumOk(instance, s) then {} else {NotInEnum(path)}
    else if EnumOk(instance, s) then {} else {NotInEnum(path)}
  }

  /** The validator raises exactly when some check fails, at any path: it returns iff there
      is no violation, and the `ValidationError` it raises reports one of them. */
  lemma {:induction false} ValidIffNoViolations(instance: Value, schema: Value, path: string)
    requires WellFormed(schema)
    ensures Valid(instance, schema) <==> Violations(instance, schema, path) == {}
    decreases schema
  {
    var s := schema.entries;
    if IsObjectSchema(s) && instance.Dict? {
      var m := instance.entries;
      var props := Properties(s);
      forall k | k in m && k in props
        ensures Valid(m[k], props[k]) <==> Violations(m[k], props[k], Child(path, k)) == {}
      {
        ValidIffNoViolations(m[k], props[k], Child(path, k));
      }
      ObjectValidIff(instance, schema, path);
    } else if IsArraySchema(s) && instance.List? && ItemSchema(s).Some? {
      var xs := instance.items;
      var item := ItemSchema(s).value;
      forall i | 0 <= i < |xs|
        ensures Valid(xs[i], item) <==> Violations(xs[i], item, Index(path, i)) == {}
      {
        ValidIffNoViolations(xs[i], item, Index(path, i));
      }
      ArrayValidIff(instance, schema, path);
    }
  }

  /** The object case, given the property values' equivalence. */
  lemma ObjectValidIff(instance: Value, schema: Value, path: string)
    requires WellFormed(schema) && IsObjectSchema(schema.entries) && instance.Dict?
    requires var m := instance.entries; var props := Properties(schema.entries);
      forall k :: k in m && k in props ==>
        (Valid(m[k], props[k]) <==> Violations(m[k], props[k], Child(path, k)) == {})
    ensures Valid(instance, schema) <==> Violations(instance, schema, path) == {}
  {
    var s := schema.entries;
    var m := instance.entries;
    var props := Properties(s);
    NestedEmpty(m, props, path);
    if !AdditionalAllowed(s) && !(m.Keys <= props.Keys) {
      var k :| k in m && k !in props;
      assert UnexpectedField(path, k) in Violations(instance, schema, path);
    }
    if exists i :: 0 <= i < |Required(s)| && Required(s)[i].s !in m {
      var i :| 0 <= i < |Required(s)| && Required(s)[i].s !in m;
      assert MissingField((if path == [] then [] else path + ".") + Required(s)[i].s) in Violations(instance, schema, path);
    }
  }

  /** The array case with an item schema, given the items' equivalence. */
  lemma ArrayValidIff(instance: Value, schema: Value, path: string)
    requires WellFormed(schema) && IsArraySchema(schema.entries) && instance.List? && ItemSchema(schema.entries).Some?
    requires var xs := instance.items; var item := ItemSchema(schema.entries).value;
      forall i :: 0 <= i < |xs| ==> (Valid(xs[i], item) <==> Violations(xs[i], item, Index(path, i)) == {})
    ensures Valid(instance, schema) <==> Violations(instance, schema, path) == {}
  {
    var xs := instance.items;
    var item := ItemSchema(schema.entries).value;
    if exists i :: 0 <= i < |xs| && !Valid(xs[i], item) {
      var i :| 0 <= i < |xs| && !Valid(xs[i], item);
      var v :| v in Violations(xs[i], item, Index(path, i));
      assert v in Violations(instance, schema, path);
    }
  }

  /** The violations of the properties are empty iff each property's violations are. */
  lemma NestedEmpty(m: map<string, Value>, props: map<string, Value>, path: string)
    requires forall k :: k in props ==> WellFormed(props[k])
    ensures (set k, v | k in m && k in props && v in Violations(m[k], props[k], Child(path, k)) :: v) == {}
      <==> forall k :: k in m && k in props ==> Violations(m[k], props[k], Child(path, k)) == {}
  {
    if exists k :: k in m && k in props && Violations(m[k], props[k], Child(path, k)) != {} {
      var k :| k in m && k in props && Violations(m[k], props[k], Child(path, k)) != {};
      var v :| v in Violations(m[k], props[k], Child(path, k));
      var found := set k', v' | k' in m && k' in props && v' in Violations(m[k'], props[k'], Child(path, k')) :: v';
      assert k in m && k in props && v in Violations(m[k], props[k], Child(path, k));
      assert v in found;
    }
  }

  /** An object schema reports a non-dict instance alone; for a dict it reports every missing
      required field and, when extra keys are refused, every key it does not list. */
  lemma ObjectChecks(instance: Value, schema: Value, path: string)
    requires WellFormed(schema) && IsObjectSchema(schema.entries)
    ensures !instance.Dict? ==> Violations(instance, schema, path) == {NotObject(if path == [] then RootName else path)}
    ensures instance.Dict? ==> forall i :: 0 <= i < |Required(schema.entries)| && Required(schema.entries)[i].s !in instance.entries ==>
      MissingField((if path == [] then [] else path + ".") + Required(schema.entries)[i].s) in Violations(instance, schema, path)
    ensures instance.Dict? && !AdditionalAllowed(schema.entries) ==>
      forall k :: k in instance.entries && k !in Properties(schema.entries) ==> UnexpectedField(path, k) in Violations(instance, schema, path)
  {
  }

  /** An array schema reports a non-list alone, and a list shorter than `minItems` or longer
      than `maxItems`; without an item schema those are the only checks. */
  lemma ArrayChecks(instance: Value, schema: Value, path: string)
    requires WellFormed(schema) && IsArraySchema(schema.entries)
    ensures !instance.List? ==> Violations(instance, schema, path) == {NotArray(path)}
    ensures instance.List? && !MinOk(|instance.items|, Get(schema.entries, MinItemsKey)) ==>
      TooFewItems(path) in Violations(instance, schema, path)
    ensures instance.List? && !MaxOk(|instance.items|, Get(schema.entries, MaxItemsKey)) ==>
      TooManyItems(path) in Violations(instance, schema, path)
    ensures instance.List? && ItemSchema(schema.entries).None? ==>
      (Violations(instance, schema, path) == {} <==>
        MinOk(|instance.items|, Get(schema.entries, MinItemsKey)) && MaxOk(|instance.items|, Get(schema.entries, MaxItemsKey)))
  {
  }

  /** The scalar types: "number" accepts booleans, as Python's bool is an int, and a schema
      with no type the validator knows and no enumeration accepts anything. */
  lemma ScalarChecks(instance: Value, schema: Value, path: string)
    requires WellFormed(schema) && !IsObjectSchema(schema.entries) && !IsArraySchema(schema.entries)
    ensures TypeOf(schema.entries) == Str(BooleanType) ==> (Valid(instance, schema) <==> instance.Bool?)
    ensures TypeOf(schema.entries) == Str(NumberType) ==>
      (Valid(instance, schema) <==> instance.Bool? || instance.Int? || instance.Float?)
    ensures TypeOf(schema.entries) == Str(StringType) ==> (Valid(instance, schema) ==> instance.Str?)
    ensures TypeOf(schema.entries) !in {Str(BooleanType), Str(NumberType), Str(StringType)} && EnumKey !in schema.entries
      ==> Valid(instance, schema) && Violations(instance, schema, path) == {}
  {
  }

  /** Only the keys the schema lists are validated: the value at an unlisted key has no
      bearing on the verdict, whether extra keys are allowed or not. */
  lemma UnlistedValueIgnored(m: map<string, Value>, k: string, v: Value, schema: Value)
    requires WellFormed(schema) && IsObjectSchema(schema.entries)
    requires k in m && k !in Properties(schema.entries)
    ensures Valid(Dict(m[k := v]), schema) <==> Valid(Dict(m), schema)
  {
    var props := Properties(schema.entries);
    var m' := m[k := v];
    assert m'.Keys == m.Keys;
    assert forall j :: j in m' && j in props ==> m'[j] == m[j];
  }
}
