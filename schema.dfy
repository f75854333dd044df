/**
  A model's schema: its field names in enumeration order, each bound either to
  a built-in type descriptor or to an options object naming a data type, a
  default and a validator.
 */
module Schema {
  import opened Wrappers
  import opened Js
  import opened DataTypes

  datatype Entry =
    | Plain(descriptor: TypeDescriptor)
    | Custom(dataType: Option<TypeDescriptor>, defaultValue: Option<Value>, validator: Option<Value -> bool>)

  /**
    The value `schema[key].defaultValue` reads: the entry's own `defaultValue`
    property. An options object does not fall back to its data type's default.
   */
  function DefaultOf(e: Entry): (v: Value)
    ensures e.Plain? && e.descriptor.defaultValue.Some? ==> v == e.descriptor.defaultValue.value
    ensures e.Custom? && e.defaultValue.Some? ==> v == e.defaultValue.value
    ensures (e.Plain? && e.descriptor.defaultValue.None?) || (e.Custom? && e.defaultValue.None?) ==> v == Undefined
  {
    match e
    case Plain(d) => GetOr(d.defaultValue, Undefined)
    case Custom(_, dv, _) => GetOr(dv, Undefined)
  }

  predicate Distinct(keys: seq<string>) {
    forall i, j :: 0 <= i < j < |keys| ==> keys[i] != keys[j]
  }

  /** `keys` is the order in which the schema object's own keys are enumerated. */
  datatype RawSchema = RawSchema(keys: seq<string>, entries: map<string, Entry>)

  predicate WellFormed(s: RawSchema) {
    && Distinct(s.keys)
    && (forall k :: k in s.keys ==> k in s.entries)
    && (forall k :: k in s.entries ==> k in s.keys)
  }

  type Schema = s: RawSchema | WellFormed(s) witness RawSchema([], map[])

  /** The base class's schema, an empty object. */
  const BaseSchema: Schema := RawSchema([], map[])

  /** A field given as an options object with only a data type gets no default, whatever the data type's default. */
  lemma CustomDefaultDoesNotFallBack(d: TypeDescriptor, v: Option<Value -> bool>)
    ensures DefaultOf(Custom(Some(d), None, v)) == Undefined
  {
  }
}
