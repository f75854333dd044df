/** Model options and the choice of a model's table name. */
module TableNaming {
  import opened Js

  /** The model options record. `tableName` is any value: only a string is taken as a name. */
  datatype Options = Options(safeDelete: bool, timestamp: bool, tableName: Value)

  /** The options of the base class: soft delete and timestamps on, no table name. */
  const DefaultOptions: Options := Options(true, true, Undefined)

  /** ASCII lower-casing of one character. */
  function LowerChar(c: char): (r: char)
    ensures 'A' <= c <= 'Z' ==> r as int == c as int + 32
    ensures !('A' <= c <= 'Z') ==> r == c
  {
    if 'A' <= c <= 'Z' then (c as int + 32) as char else c
  }

  predicate NoUpper(s: string) {
    forall i :: 0 <= i < |s| ==> !('A' <= s[i] <= 'Z')
  }

  /** `toLowerCase`, restricted to the ASCII letters. */
  function ToLower(s: string): (r: string)
    ensures |r| == |s|
    ensures forall i :: 0 <= i < |s| ==> r[i] == LowerChar(s[i])
    ensures NoUpper(r)
  {
    if s == [] then [] else [LowerChar(s[0])] + ToLower(s[1..])
  }

  /** Lower-casing twice is the same as lower-casing once. */
  lemma ToLowerIdempotent(s: string)
    ensures ToLower(ToLower(s)) == ToLower(s)
  {
  }

  /**
    The table name of a model class named `className`: the `tableName` option
    when it is a string, otherwise the lower-cased plural of the class name.
   */
  function SelectTableName(options: Options, className: string, pluralize: string -> string): (r: string)
    ensures options.tableName.Str? ==> r == options.tableName.s
    ensures !options.tableName.Str? ==> r == ToLower(pluralize(className)) && NoUpper(r)
  {
    if TypeOf(options.tableName) == "string" then options.tableName.s
    else ToLower(pluralize(className))
  }

  /** With the default options the table name is always derived from the class name. */
  lemma DefaultOptionsDeriveName(className: string, pluralize: string -> string)
    ensures DefaultOptions.safeDelete && DefaultOptions.timestamp && DefaultOptions.tableName == Undefined
    ensures SelectTableName(DefaultOptions, className, pluralize) == ToLower(pluralize(className))
  {
  }

  /**
    Model's own `tableName` property, as the static getter leaves it: still the
    getter, or a data property holding the name a read on Model itself stored.
   */
  datatype BaseSlot = Getter | Stored(name: string)

  /** The outcome of reading `tableName`: a name, or the TypeError the read throws. */
  datatype ReadResult = Name(s: string) | TypeError

  /**
    A read of `C.tableName` as Model.js writes it, in strict mode. `isBase` says
    whether C is Model itself; a subclass has no own `tableName` property and
    inherits Model's. The result comes with Model's property after the read.
    On Model, `delete` removes the getter and the assignment creates a data
    property. On a subclass, `delete` finds no own property, and the assignment
    meets the inherited getter, which has no setter, and throws.
   */
  function StrictRead(slot: BaseSlot, isBase: bool, options: Options, className: string, pluralize: string -> string): (ReadResult, BaseSlot)
  {
    match slot
    case Stored(t) => (Name(t), slot)
    case Getter =>
      var t := SelectTableName(options, className, pluralize);
      if isBase then (Name(t), Stored(t)) else (TypeError, Getter)
  }

  /** As written, the first read of a subclass's table name throws while Model's getter is in place. */
  lemma SubclassReadThrows(options: Options, className: string, pluralize: string -> string)
    ensures StrictRead(Getter, false, options, className, pluralize) == (TypeError, Getter)
  {
  }

  /**
    As written, once Model's own table name has been read, every subclass reads
    that same name, whatever its class name or `tableName` option.
   */
  lemma BaseReadShadowsSubclasses(baseOptions: Options, subOptions: Options, subName: string, pluralize: string -> string)
    ensures var (first, slot) := StrictRead(Getter, true, baseOptions, "Model", pluralize);
      && first == Name(SelectTableName(baseOptions, "Model", pluralize))
      && StrictRead(slot, false, subOptions, subName, pluralize).0 == first
  {
  }

  /**
    A concrete case: after Model's name "models" is stored, a subclass whose
    `tableName` option is "people" reads "models", where its own option selects "people".
   */
  lemma StoredNameMisfires(pluralize: string -> string)
    ensures var sub := Options(true, true, Str("people"));
      && StrictRead(Stored("models"), false, sub, "Person", pluralize).0 == Name("models")
      && SelectTableName(sub, "Person", pluralize) == "people"
  {
  }
}
