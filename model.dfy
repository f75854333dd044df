/**
  The model base class: a model class with its schema, options and cached
  table name, and the instances it constructs.
 */
module Model {
  import opened Wrappers
  import opened Js
  import opened Schema
  import opened TableNaming
  import opened Construction

  /** A model class, as seen through its static members. */
  class ModelClass {
    const name: string
    const schema: Schema
    const options: Options
    /** The pluralization library function, left uninterpreted. */
    const pluralize: string -> string
    /** The table name, once it has been read. */
    var tableNameCache: Option<string>

    ghost predicate Valid()
      reads this
    {
      tableNameCache.Some? ==> tableNameCache.value == SelectTableName(options, name, pluralize)
    }

    constructor (name: string, schema: Schema, options: Options, pluralize: string -> string)
      ensures Valid()
      ensures this.name == name && this.schema == schema && this.options == options && this.pluralize == pluralize
      ensures tableNameCache == None
    {
      this.name := name;
      this.schema := schema;
      this.options := options;
      this.pluralize := pluralize;
      tableNameCache := None;
    }

    /** The `tableName` getter: computes the name on first use and caches it. */
    method TableName() returns (t: string)
      requires Valid()
      modifies this`tableNameCache
      ensures Valid()
      ensures t == SelectTableName(options, name, pluralize)
      ensures tableNameCache == Some(t)
      ensures old(tableNameCache).Some? ==> t == old(tableNameCache).value
    {
      if tableNameCache.Some? {
        t := tableNameCache.value;
      } else {
        if TypeOf(options.tableName) == "string" {
          t := options.tableName.s;
        } else {
          t := ToLower(pluralize(name));
        }
        tableNameCache := Some(t);
      }
    }
  }

  /** Reading the table name twice gives the same name, and the cache stays set. */
  method TableNameIsStable(cls: ModelClass) returns (first: string, second: string)
    requires cls.Valid()
    modifies cls
    ensures first == second == SelectTableName(cls.options, cls.name, cls.pluralize)
    ensures cls.tableNameCache == Some(first)
  {
    first := cls.TableName();
    second := cls.TableName();
  }

  /** The inputs of a construction of an instance of `cls`, with the accessor guard `probe`. */
  function SetupOf(cls: ModelClass, useDefaults: bool, outcome: (nat, nat) -> Value, proto: map<string, Value>, probe: Probe): (c: Setup)
    ensures Covers(c, cls.schema.keys)
  {
    Setup(cls.schema.entries, useDefaults, outcome, proto, probe)
  }

  /** An instance of a model class. */
  class Instance {
    const cls: ModelClass
    /** The members the instance sees through its prototype chain. */
    const proto: map<string, Value>
    /** The stored field values; a field without a value has no entry. */
    var properties: map<string, Value>
    /** The fields whose accessor was installed. */
    var accessors: set<string>
    /** The fields skipped with a warning, in key order. */
    var warned: seq<string>

    ghost predicate Valid()
      reads this
    {
      && (forall k :: k in properties ==> k in cls.schema.keys)
      && (forall k :: k in accessors ==> k in cls.schema.keys)
    }

    /**
      Constructs an instance: starting from empty `properties`, goes through the
      schema keys in order, applies defaults when `useDefaults` is set (calling
      function defaults through `host`), and installs one accessor per field
      unless the property `probe` names is already defined, in which case it
      warns instead. `LiteralKey` is the test Model.js makes; `FieldName` is
      the corrected one.
     */
    constructor (cls: ModelClass, useDefaults: bool, host: Host, proto: map<string, Value>, probe: Probe)
      modifies host
      ensures this.cls == cls && this.proto == proto
      ensures InitState(properties, host.calls, accessors, warned)
           == Init(SetupOf(cls, useDefaults, host.outcome, proto, probe), cls.schema.keys, old(host.calls))
      ensures Valid()
      ensures !useDefaults ==> properties == map[] && host.calls == old(host.calls)
      ensures probe == FieldName ==> forall k :: k in accessors <==> k in cls.schema.keys && !PreDefined(proto, k)
    {
      this.cls := cls;
      this.proto := proto;
      properties := map[];
      accessors := {};
      warned := [];
      new;
      var keys := cls.schema.keys;
      var entries := cls.schema.entries;
      ghost var setup := SetupOf(cls, useDefaults, host.outcome, proto, probe);
      var i := 0;
      while i < |keys|
        invariant 0 <= i <= |keys|
        invariant InitState(properties, host.calls, accessors, warned) == Init(setup, keys[..i], old(host.calls))
      {
        var key := keys[i];
        if useDefaults {
          var dv := DefaultOf(entries[key]);
          if Truthy(dv) {
            if TypeOf(dv) == "function" {
              var v := host.Call(dv.ref);
              properties := properties[key := v];
            } else {
              properties := properties[key := dv];
            }
          }
        }
        if ReadMember(properties, accessors, proto, if probe == LiteralKey then "key" else key) != Undefined {
          warned := warned + [key];
        } else {
          accessors := accessors + {key};
        }
        assert keys[..i + 1][..i] == keys[..i];
        i := i + 1;
      }
      assert keys[..i] == keys;
      InitDomain(setup, keys, old(host.calls));
      if !useDefaults {
        NoDefaultsNoProperties(setup, keys, old(host.calls));
      }
      if probe == FieldName {
        FieldProbeAccessors(setup, keys, old(host.calls));
      }
    }

    /** The accessor's getter for field `k`: the stored value, or `undefined` when there is none. */
    method Get(k: string) returns (v: Value)
      requires k in accessors
      ensures k in properties ==> v == properties[k]
      ensures k !in properties ==> v == Undefined
    {
      v := Lookup(properties, k);
    }

    /** The accessor's setter for field `k`: stores `v` under `k` and changes no other entry. */
    method Set(k: string, v: Value)
      requires Valid() && k in accessors
      modifies this`properties
      ensures Valid()
      ensures properties == old(properties)[k := v]
      ensures forall j :: j != k ==> (j in properties <==> j in old(properties))
      ensures forall j :: j != k && j in properties ==> properties[j] == old(properties)[j]
    {
      properties := properties[k := v];
    }
  }

  /** Setting a field and reading it back gives the value set; other fields read as before. */
  method SetThenGet(inst: Instance, k: string, j: string, v: Value) returns (got: Value, other: Value)
    requires inst.Valid() && k in inst.accessors && j in inst.accessors && j != k
    modifies inst`properties
    ensures got == v
    ensures other == Lookup(old(inst.properties), j)
  {
    inst.Set(k, v);
    got := inst.Get(k);
    other := inst.Get(j);
  }
}
