# estelle model core in Dafny

This project models the core of the `estelle` object-relational mapper as it stands in this snapshot. It covers three parts:

- the built-in type descriptors `STRING`, `INTEGER` and `DATETIME`;
- the `Model` base-class constructor, which applies schema defaults and installs one get/set accessor per schema field;
- the static `tableName` getter with its cache, and the default `Model.options` record.

Modules:

- `Wrappers` (`js.dfy`): an `Option` type.
- `Js` (`js.dfy`): the JavaScript values the constructor handles, `ToBoolean` truthiness, `typeof`, and reading a missing key as `undefined`. It also holds a `Host` class that runs foreign functions. A default given as a function is called through `Host.Call`. What the call returns is an oracle, `outcome(function, callIndex)`, so one generator may return a new value on every call.
- `DataTypes` (`data_types.dfy`): the descriptor records as constants.
- `Schema` (`schema.dfy`): a schema is its keys in enumeration order, plus one entry per key. An entry is either a descriptor or an options object `{dataType, defaultValue, validator}`. `DefaultOf` is the `schema[key].defaultValue` read.
- `TableNaming` (`naming.dfy`): the options record, the defaults and table-name selection. It also holds `StrictRead`, which captures what the getter's property mechanics do to Model and its subclasses.
- `Construction` (`construction.dfy`): the constructor as a left fold `Init` over the schema keys, and the lemmas about it.
- `Model` (`model.dfy`): the classes. `ModelClass` holds a class's static side: name, schema, options, `pluralize` and the table-name cache. `Instance` holds `properties`, the installed accessors and the warned fields. Its constructor loop is proved equal to `Init`. `Get` and `Set` stand for the injected accessors.

The constructor takes a single argument, `useDefaults`. It takes no initial values and never reads a row from storage.

## Model

| member | source | states |
|---|---|---|
| `Js.TypeOf` | Model.js:24 | `typeof v` is `"function"` exactly for function values, `"string"` exactly for strings and `"undefined"` exactly for `undefined`. The first is the test of Model.js:24 and the second that of Model.js:137 |
| `Js.FalsyValues` | Model.js:23 | a value fails the `if (defaultValue)` test exactly when it is `undefined`, `null`, `false`, `0`, `NaN` or `""` |
| `Js.Host.Call` | Model.js:25 | calling a function default appends one entry to the host's call log and returns the oracle's result for that call |
| `DataTypes.StringValidatorAcceptsAll` | DataTypes.js:9 | the STRING validator returns true for every value |
| `DataTypes.StringDefaultIsLiteral` | DataTypes.js:10 | the STRING default is the literal `"hello"`, which is truthy and not a function |
| `DataTypes.StringColumnTypes` | DataTypes.js:4-8 | STRING has column type `"TEXT"` for postgres, mysql and sqlite3, and no column type for any other dialect |
| `DataTypes.BareDescriptors` | DataTypes.js:13-19 | INTEGER and DATETIME have names `"int"` and `"dtime"` and no column types, validator or default |
| `DataTypes.NamesDistinct` | DataTypes.js:3-18 | the names `"str"`, `"int"` and `"dtime"` are pairwise distinct |
| `Schema.DefaultOf` | Model.js:20 | the default read is the entry's own `defaultValue` property, and it reads `undefined` when the entry has none |
| `Schema.CustomDefaultDoesNotFallBack` | Model.js:20 | an options-object field with a data type but no `defaultValue` has no default, whatever its data type's default |
| `TableNaming.ToLower` | Model.js:141 | lower-casing keeps the length, maps each character through `LowerChar`, and leaves no upper-case letter |
| `TableNaming.ToLowerIdempotent` | Model.js:141 | lower-casing twice is the same as lower-casing once |
| `TableNaming.SelectTableName` | Model.js:137-141 | a string `tableName` option is returned verbatim; otherwise the result is `ToLower` of the pluralized class name, which has no upper-case letter |
| `TableNaming.DefaultOptionsDeriveName` | Model.js:149-159 | the defaults are `safeDelete = true`, `timestamp = true` and `tableName = undefined`, so the name is derived from the class name |
| `TableNaming.SubclassReadThrows` | Model.js:133-141 | as written, in strict mode, a subclass's first `tableName` read throws a TypeError while Model's getter is still in place |
| `TableNaming.BaseReadShadowsSubclasses` | Model.js:133-141 | as written, after a read on Model itself stores Model's name, every subclass reads that name whatever its own name or options |
| `TableNaming.StoredNameMisfires` | Model.js:135-141 | a concrete subclass whose `tableName` option is `"people"` reads `"models"` after Model's name is stored |
| `Construction.StepEffect` | Model.js:18-40 | one key's step changes `properties` only at that key, and logs at most that field's generator call |
| `Construction.InitDomain` | Model.js:16-40 | every stored key, every accessor and every warned field is a schema key |
| `Construction.NoDefaultsNoProperties` | Model.js:11-18 | without `useDefaults`, `properties` stays empty and no function is called |
| `Construction.InitField` | Model.js:18-29 | a field gets an entry exactly when defaults are on and its default is truthy; a literal default is stored as is; a function default stores the result of its call |
| `Construction.InitCalls` | Model.js:24-25 | the construction's calls are exactly the function defaults, one per such field, in key order |
| `Construction.GeneratorCallIsFresh` | Model.js:24-25 | a function default's stored value comes from a call logged during this construction |
| `Construction.GeneratorCount` | Model.js:24-25 | the number of calls equals the number of fields whose default is a function, or zero without defaults |
| `Construction.StringFieldHoldsHello` | Model.js:23-27 | with defaults on, a STRING field holds `"hello"` |
| `Construction.BareFieldsStayAbsent` | Model.js:23 | INTEGER and DATETIME fields never get an entry |
| `Construction.LiteralKeyProbeIgnoresField` | Model.js:33-40 | as written, while no property named `key` is defined, every field gets an accessor, even one hiding an inherited member |
| `Construction.LiteralKeyProbeMisfires` | Model.js:33 | concrete inputs where the guard as written warns about a free name, or shadows the inherited `delete` method |
| `Construction.FieldProbeAccessors` | Model.js:33-40 | with the corrected guard, a field gets an accessor exactly when its name is not yet defined on the instance, and is warned about exactly when it is |
| `Model.ModelClass.TableName` | Model.js:133-142 | the intended per-class cache: it returns the class's own selected table name, caches it, and returns the cached name on later reads |
| `Model.TableNameIsStable` | Model.js:133-142 | two reads of `tableName` return the same selected name |
| `Model.Instance.constructor` | Model.js:9-42 | for either accessor guard, the loop leaves `properties`, the host's call log, the accessors and the warnings equal to `Init` over the schema keys. Only schema keys are stored. Without defaults `properties` is empty. With the corrected guard, exactly the names not yet defined get accessors |
| `Model.Instance.Get` | Model.js:37 | the getter returns `properties[k]`, or `undefined` when there is no entry |
| `Model.Instance.Set` | Model.js:38 | the setter stores the new value under `k` only, leaves every other entry unchanged, and keeps all keys inside the schema |
| `Model.SetThenGet` | Model.js:36-39 | reading a field after setting it returns the value set, and other fields read as before |

## Left out

- The CRUD and finder methods `findById`, `findAll`, static and instance `create` and `createOrUpdate`, `update` and `delete` (Model.js:49-123). Their bodies are empty stubs, so there is nothing to model. The names of the four instance methods appear as members of `Construction.BasePrototype`, because an instance sees them through its prototype. The static methods appear nowhere.
- Connection.js and index.js are not part of this model. They wrap the `knex` database library and store a connection. test.js, an example script, is not part of this model either.
- The warning at Model.js:34 writes a log message. The model records it only as the field's name in `warned`.
- `pluralize` is a library function. The model takes it as an opaque `string -> string` parameter of `ModelClass`.
- `toLowerCase` is modelled on the ASCII letters only. Unicode case mapping is not modelled.
- Subclasses share the one `Model.options` object, and a script can change it at runtime. The model gives each `ModelClass` its own immutable options.
- `Object.defineProperty` is not modelled. Accessors are a set of field names, and `Get` and `Set` stand for the installed getter and setter. Reading an absent entry of `properties` gives `undefined`. The members that `properties` inherits from `Object.prototype` are ignored.
- Numbers are integers plus `NaN`. Floating point, `-0` and BigInt are not modelled.
- `Object.keys` ordering rules, such as integer-like keys first, are not modelled. The schema supplies its key order.
- A `Map` used as a schema is not modelled. `Object.keys` does not enumerate a `Map`'s entries.
- Validators are never called by this core. They are carried in the descriptors but not applied.
- `Js.Host.Call`: a function default that throws at Model.js:25 is not modelled. In the program the exception stops the constructor partway through. In the model every call returns, and every construction completes.
- A `null` or `undefined` value in the schema is not modelled. With defaults on, `schema[key].defaultValue` at Model.js:20 throws a TypeError for such a value. A `Schema.Entry` is always a descriptor or an options object, so it cannot represent one.
- `Model.ModelClass.TableName` models the intended per-class cache, not the property mechanics of Model.js:135-141. Those mechanics are modelled on values by `TableNaming.StrictRead` and described under Findings. A subclass's first read throws a TypeError. Once Model's own name has been read, every subclass returns that name. The model does not model subclasses that define their own static `tableName`.

## Findings

| source | as written | input that shows it | evidently intended | confidence | as-written member | corrected member |
|---|---|---|---|---|---|---|
| Model.js:33 | `this.key !== undefined` tests the property literally named `key`, whatever the field | schema `{key: STRING, name: STRING}` with defaults: `name` is warned about though no `name` is defined. Schema `{delete: INTEGER}`: its accessor hides the inherited `delete` method without a warning | test `this[key]`, the field's own name, as the warning text says | high; not executed | `Construction.LiteralKeyProbeMisfires` | `Construction.FieldProbeAccessors` |
| Model.js:135-141 | the getter deletes `this.tableName` and assigns the name to `this.tableName` | a strict-mode read of `Sub.tableName` while Model's getter is in place: the assignment meets the inherited getter, which has no setter, and throws a TypeError. After `Model.tableName` has been read, `Sub.tableName` returns Model's name, even when `Sub`'s `tableName` option is `"people"` | each class computes its own name once and caches it on itself | high; not executed | `TableNaming.StoredNameMisfires` | `Model.ModelClass.TableName` |
