/** The built-in field type descriptors. */
module DataTypes {
  import opened Wrappers
  import opened Js

  /**
    A type descriptor: its name, its column type per database dialect, a
    validator and a default. Properties a descriptor does not define are `None`.
   */
  datatype TypeDescriptor = TypeDescriptor(
    name: string,
    types: Option<map<string, string>>,
    validator: Option<Value -> bool>,
    defaultValue: Option<Value>)

  const STRING: TypeDescriptor := TypeDescriptor(
    "str",
    Some(map["postgres" := "TEXT", "mysql" := "TEXT", "sqlite3" := "TEXT"]),
    Some((x: Value) => true),
    Some(Str("hello")))

  const INTEGER: TypeDescriptor := TypeDescriptor("int", None, None, None)

  const DATETIME: TypeDescriptor := TypeDescriptor("dtime", None, None, None)

  /** The STRING validator accepts every value. */
  lemma StringValidatorAcceptsAll(x: Value)
    ensures STRING.validator.Some? && STRING.validator.value(x)
  {
  }

  /** The STRING default is the literal "hello": a truthy value that is not a function. */
  lemma StringDefaultIsLiteral()
    ensures STRING.defaultValue == Some(Str("hello"))
    ensures Truthy(STRING.defaultValue.value) && TypeOf(STRING.defaultValue.value) != "function"
  {
  }

  /** STRING is a TEXT column on postgres, mysql and sqlite3, and has no column type on any other dialect. */
  lemma StringColumnTypes(dialect: string)
    ensures STRING.types.Some?
    ensures dialect in STRING.types.value <==> dialect in {"postgres", "mysql", "sqlite3"}
    ensures dialect in STRING.types.value ==> STRING.types.value[dialect] == "TEXT"
  {
  }

  /** INTEGER and DATETIME carry only a name. */
  lemma BareDescriptors()
    ensures INTEGER.name == "int" && INTEGER.types.None? && INTEGER.validator.None? && INTEGER.defaultValue.None?
    ensures DATETIME.name == "dtime" && DATETIME.types.None? && DATETIME.validator.None? && DATETIME.defaultValue.None?
  {
  }

  /** The three descriptor names are pairwise distinct. */
  lemma NamesDistinct()
    ensures STRING.name != INTEGER.name && STRING.name != DATETIME.name && INTEGER.name != DATETIME.name
  {
  }
}
