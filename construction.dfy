/**
  What constructing a model instance does, as a function of its inputs: for each
  schema key in enumeration order, store the field's default when defaults are
  requested, then install the field's accessor unless a guard finds the name
  already taken (in which case the field is only warned about).
 */
module Construction {
  import opened Js
  import opened DataTypes
  import opened Schema

  /** Which property the constructor tests before installing a field's accessor. */
  datatype Probe =
    | LiteralKey  // the property literally named "key": the test as Model.js writes it
    | FieldName   // the property named by the field: the test its warning message describes

  /**
    The inputs of one construction: the schema entries, whether defaults are
    applied, the results of foreign calls, the members an instance sees through
    its prototype chain, and the accessor guard.
   */
  datatype Setup = Setup(
    entries: map<string, Entry>,
    useDefaults: bool,
    outcome: (nat, nat) -> Value,
    proto: map<string, Value>,
    probe: Probe)

  /** What a construction has built so far; `calls` is the host's log of foreign calls. */
  datatype InitState = InitState(
    properties: map<string, Value>,
    calls: seq<nat>,
    accessors: set<string>,
    warned: seq<string>)

  /** The `properties` object every instance holds: a defined, non-function value. */
  const BackingObject: Value := Obj(0)

  /** The members of the base class's prototype: its constructor and its instance methods. */
  const BasePrototype: map<string, Value> :=
    map["constructor" := Func(0), "create" := Func(1), "createOrUpdate" := Func(2),
        "update" := Func(3), "delete" := Func(4)]

  predicate Covers(c: Setup, keys: seq<string>) {
    forall k | k in keys :: k in c.entries
  }

  /** What `this[name]` reads on an instance under construction. */
  function ReadMember(properties: map<string, Value>, accessors: set<string>, proto: map<string, Value>, name: string): Value {
    if name in accessors then Lookup(properties, name)
    else if name == "properties" then BackingObject
    else Lookup(proto, name)
  }

  /** Whether `name` is defined on the instance before any accessor is installed. */
  predicate PreDefined(proto: map<string, Value>, name: string) {
    name == "properties" || Lookup(proto, name) != Undefined
  }

  /** Stores the default of field `key`: a truthy default is called if it is a function and copied otherwise. */
  function ApplyDefault(c: Setup, st: InitState, key: string): InitState
    requires key in c.entries
  {
    if !c.useDefaults then st
    else
      var dv := DefaultOf(c.entries[key]);
      if !Truthy(dv) then st
      else if TypeOf(dv) == "function" then
        st.(properties := st.properties[key := c.outcome(dv.ref, |st.calls|)], calls := st.calls + [dv.ref])
      else
        st.(properties := st.properties[key := dv])
  }

  /** Installs the accessor of field `key`, or warns when the probed property is already defined. */
  function InstallAccessor(c: Setup, st: InitState, key: string): InitState {
    var probe := if c.probe == LiteralKey then "key" else key;
    if ReadMember(st.properties, st.accessors, c.proto, probe) != Undefined then st.(warned := st.warned + [key])
    else st.(accessors := st.accessors + {key})
  }

  function Step(c: Setup, st: InitState, key: string): InitState
    requires key in c.entries
  {
    InstallAccessor(c, ApplyDefault(c, st, key), key)
  }

  /** The state after processing `keys`, starting from an empty `properties` and the host log `calls0`. */
  function Init(c: Setup, keys: seq<string>, calls0: seq<nat>): InitState
    requires Covers(c, keys)
    decreases |keys|
  {
    if keys == [] then InitState(map[], calls0, {}, [])
    else
      var n := |keys| - 1;
      Step(c, Init(c, keys[..n], calls0), keys[n])
  }

  /** The functions a construction calls, one per field whose default is a function, in key order. */
  function Generators(c: Setup, keys: seq<string>): seq<nat>
    requires Covers(c, keys)
    decreases |keys|
  {
    if keys == [] then []
    else
      var n := |keys| - 1;
      var dv := DefaultOf(c.entries[keys[n]]);
      Generators(c, keys[..n]) + (if c.useDefaults && dv.Func? then [dv.ref] else [])
  }

  /** The fields whose default is a function. */
  function GeneratorFields(c: Setup, keys: seq<string>): set<string>
    requires Covers(c, keys)
  {
    set k | k in keys && DefaultOf(c.entries[k]).Func?
  }

  /** The value a truthy default produces when it is applied as the `index`-th foreign call. */
  function Produced(c: Setup, dv: Value, index: nat): Value {
    if dv.Func? then c.outcome(dv.ref, index) else dv
  }

  /** One step changes `properties` only at `key`, and the host log only by that field's call. */
  lemma StepEffect(c: Setup, st: InitState, key: string)
    requires key in c.entries
    ensures var r := Step(c, st, key);
      var dv := DefaultOf(c.entries[key]);
      && r.properties == (if c.useDefaults && Truthy(dv) then st.properties[key := Produced(c, dv, |st.calls|)] else st.properties)
      && r.calls == st.calls + (if c.useDefaults && dv.Func? then [dv.ref] else [])
      && r.accessors <= st.accessors + {key}
      && r.warned in {st.warned, st.warned + [key]}
  {
  }

  /** The host log grows by exactly the generator calls, in key order. */
  lemma {:induction false} InitCalls(c: Setup, keys: seq<string>, calls0: seq<nat>)
    requires Covers(c, keys)
    ensures Init(c, keys, calls0).calls == calls0 + Generators(c, keys)
  {
    if keys != [] {
      var n := |keys| - 1;
      InitCalls(c, keys[..n], calls0);
      StepEffect(c, Init(c, keys[..n], calls0), keys[n]);
    }
  }

  /** Only schema keys are ever stored, given accessors or warned about. */
  lemma {:induction false} InitDomain(c: Setup, keys: seq<string>, calls0: seq<nat>)
    requires Covers(c, keys)
    ensures var r := Init(c, keys, calls0);
      && (forall k :: k in r.properties ==> k in keys)
      && (forall k :: k in r.accessors ==> k in keys)
      && (forall k :: k in r.warned ==> k in keys)
  {
    if keys != [] {
      var n := |keys| - 1;
      InitDomain(c, keys[..n], calls0);
      StepEffect(c, Init(c, keys[..n], calls0), keys[n]);
      assert forall k :: k in keys[..n] || k == keys[n] ==> k in keys;
    }
  }

  /** Without defaults nothing is stored and nothing is called. */
  lemma {:induction false} NoDefaultsNoProperties(c: Setup, keys: seq<string>, calls0: seq<nat>)
    requires Covers(c, keys) && !c.useDefaults
    ensures Init(c, keys, calls0).properties == map[]
    ensures Init(c, keys, calls0).calls == calls0
  {
    if keys != [] {
      var n := |keys| - 1;
      NoDefaultsNoProperties(c, keys[..n], calls0);
      StepEffect(c, Init(c, keys[..n], calls0), keys[n]);
    }
  }

  /**
    What a construction stores for the field at position `i`: an entry exactly
    when defaults are on and the default is truthy; the literal itself, or the
    result of the n-th foreign call where n counts the calls before this one.
   */
  lemma {:induction false} InitField(c: Setup, keys: seq<string>, calls0: seq<nat>, i: nat)
    requires Covers(c, keys) && Distinct(keys) && i < |keys|
    ensures var r := Init(c, keys, calls0);
      var dv := DefaultOf(c.entries[keys[i]]);
      && (keys[i] in r.properties <==> c.useDefaults && Truthy(dv))
      && (keys[i] in r.properties && !dv.Func? ==> r.properties[keys[i]] == dv)
      && (keys[i] in r.properties && dv.Func? ==>
            r.properties[keys[i]] == c.outcome(dv.ref, |calls0| + |Generators(c, keys[..i])|))
  {
    var n := |keys| - 1;
    var prefix := keys[..n];
    assert Distinct(prefix);
    StepEffect(c, Init(c, prefix, calls0), keys[n]);
    if i == n {
      InitDomain(c, prefix, calls0);
      InitCalls(c, prefix, calls0);
      assert keys[n] !in prefix;
      assert keys[..i] == prefix;
    } else {
      InitField(c, prefix, calls0, i);
      assert prefix[i] == keys[i] && prefix[..i] == keys[..i];
      assert keys[i] != keys[n];
    }
  }

  /**
    A generator field's value is the result of a call made during this very
    construction: the call logged at position n, with n past the calls before it.
   */
  lemma GeneratorCallIsFresh(c: Setup, keys: seq<string>, calls0: seq<nat>, i: nat)
    requires Covers(c, keys) && Distinct(keys) && i < |keys| && c.useDefaults
    requires DefaultOf(c.entries[keys[i]]).Func?
    ensures var r := Init(c, keys, calls0);
      var n := |calls0| + |Generators(c, keys[..i])|;
      && |calls0| <= n < |r.calls|
      && r.calls[n] == DefaultOf(c.entries[keys[i]]).ref
      && keys[i] in r.properties
      && r.properties[keys[i]] == c.outcome(r.calls[n], n)
  {
    InitField(c, keys, calls0, i);
    InitCalls(c, keys, calls0);
    GeneratorsSplit(c, keys, i);
  }

  /** The generator calls of `keys` are those of the keys before `i`, then field `i`'s, then the rest. */
  lemma {:induction false} GeneratorsSplit(c: Setup, keys: seq<string>, i: nat)
    requires Covers(c, keys) && i < |keys|
    ensures var dv := DefaultOf(c.entries[keys[i]]);
      c.useDefaults && dv.Func? ==>
        |Generators(c, keys[..i])| < |Generators(c, keys)| &&
        Generators(c, keys)[|Generators(c, keys[..i])|] == dv.ref
  {
    var n := |keys| - 1;
    if i < n {
      GeneratorsSplit(c, keys[..n], i);
      assert keys[..n][..i] == keys[..i];
    } else {
      assert keys[..i] == keys[..n];
    }
  }

  /** Each generator field is called exactly once: one call per such field. */
  lemma {:induction false} GeneratorCount(c: Setup, keys: seq<string>)
    requires Covers(c, keys) && Distinct(keys)
    ensures |Generators(c, keys)| == if c.useDefaults then |GeneratorFields(c, keys)| else 0
  {
    if keys != [] {
      var n := |keys| - 1;
      var prefix := keys[..n];
      assert Distinct(prefix);
      GeneratorCount(c, prefix);
      var k := keys[n];
      assert k !in prefix;
      if DefaultOf(c.entries[k]).Func? {
        assert GeneratorFields(c, keys) == GeneratorFields(c, prefix) + {k};
      } else {
        assert GeneratorFields(c, keys) == GeneratorFields(c, prefix);
      }
    }
  }

  /**
    With the guard its warning describes, a field gets an accessor exactly when
    its name is not yet defined on the instance, and is warned about otherwise.
   */
  lemma {:induction false} FieldProbeAccessors(c: Setup, keys: seq<string>, calls0: seq<nat>)
    requires Covers(c, keys) && Distinct(keys) && c.probe == FieldName
    ensures var r := Init(c, keys, calls0);
      && (forall k :: k in r.accessors <==> k in keys && !PreDefined(c.proto, k))
      && (forall k :: k in r.warned <==> k in keys && PreDefined(c.proto, k))
  {
    if keys != [] {
      var n := |keys| - 1;
      var prefix := keys[..n];
      assert Distinct(prefix);
      FieldProbeAccessors(c, prefix, calls0);
      InitDomain(c, prefix, calls0);
      assert keys[n] !in prefix;
      assert forall k :: k in keys <==> k in prefix || k == keys[n];
    }
  }

  /**
    As written, the guard ignores the field: while no property named "key" is
    defined, every field gets an accessor, even one that hides an inherited member.
   */
  lemma {:induction false} LiteralKeyProbeIgnoresField(c: Setup, keys: seq<string>, calls0: seq<nat>)
    requires Covers(c, keys) && c.probe == LiteralKey
    requires "key" !in keys && Lookup(c.proto, "key") == Undefined
    ensures var r := Init(c, keys, calls0);
      && (forall k :: k in r.accessors <==> k in keys)
      && r.warned == []
  {
    if keys != [] {
      var n := |keys| - 1;
      LiteralKeyProbeIgnoresField(c, keys[..n], calls0);
      assert forall k :: k in keys <==> k in keys[..n] || k == keys[n];
    }
  }

  /** A foreign-call outcome that returns `undefined` for every call. */
  function NoOutcome(f: nat, n: nat): Value { Undefined }

  /**
    Two inputs on which the guard as written differs from the intended one:
    a field after a defaulted field named "key" is warned about although its
    name is free, and a field named "delete" hides the inherited method.
   */
  lemma LiteralKeyProbeMisfires()
    ensures var c := Setup(map["key" := Plain(STRING), "name" := Plain(STRING)], true, NoOutcome, map[], LiteralKey);
      Init(c, ["key", "name"], []).warned == ["name"]
    ensures var c := Setup(map["key" := Plain(STRING), "name" := Plain(STRING)], true, NoOutcome, map[], FieldName);
      Init(c, ["key", "name"], []).warned == []
    ensures var c := Setup(map["delete" := Plain(INTEGER)], false, NoOutcome, BasePrototype, LiteralKey);
      Init(c, ["delete"], []).accessors == {"delete"}
    ensures var c := Setup(map["delete" := Plain(INTEGER)], false, NoOutcome, BasePrototype, FieldName);
      Init(c, ["delete"], []).warned == ["delete"]
  {
    var keys := ["key", "name"];
    assert keys[..1] == ["key"] && ["key"][..0] == [];
    assert ["delete"][..0] == [];
  }

  /** A STRING field of a construction with defaults holds "hello". */
  lemma StringFieldHoldsHello(c: Setup, keys: seq<string>, calls0: seq<nat>, i: nat)
    requires Covers(c, keys) && Distinct(keys) && i < |keys| && c.useDefaults
    requires c.entries[keys[i]] == Plain(STRING)
    ensures var r := Init(c, keys, calls0); keys[i] in r.properties && r.properties[keys[i]] == Str("hello")
  {
    InitField(c, keys, calls0, i);
  }

  /** INTEGER and DATETIME fields get no entry, with or without defaults. */
  lemma BareFieldsStayAbsent(c: Setup, keys: seq<string>, calls0: seq<nat>, i: nat)
    requires Covers(c, keys) && Distinct(keys) && i < |keys|
    requires c.entries[keys[i]] == Plain(INTEGER) || c.entries[keys[i]] == Plain(DATETIME)
    ensures keys[i] !in Init(c, keys, calls0).properties
  {
    InitField(c, keys, calls0, i);
  }
}
