/** DSPy's compatibility layer over pydantic: the version test that picks a branch,
    the default of the v2 `get_model_config`, and the self-contained decision logic of
    the v1 branch (the `TypeAdapter` stand-in, reading and writing model configuration,
    the validator mode, and the `FieldInfo` stand-in built from a v1 `ModelField`).

    Python values are `Value`s; an object value carries the map from its attribute
    names (as `hasattr`/`getattr` see them, inherited ones included) to their values.
    A model class, which the layer changes in place, is a `ModelClass` holding only its
    own attributes and looking the others up in its bases. Calls into pydantic or into
    user types whose outcome the code cannot see are parameters. */
module PydanticCompat {
  import opened Wrappers

  /** A Python value. Dictionary keys are strings. Every other object, functions and
      classes included, is an `Object`: a function or a class has `__call__` among its
      attributes, and a Python-defined function has `__dict__` too. `listed` is the set
      of names `dir()` returns for it; it can leave out attributes `getattr` finds, as
      `dir()` on a class leaves out those of its metaclass (`mro`, `__call__`, ...). */
  datatype Value =
    | NoneValue
    | BoolValue(b: bool)
    | IntValue(i: int)
    | StrValue(s: string)
    | ListValue(items: seq<Value>)
    | DictValue(entries: map<string, Value>)
    | Object(attrs: map<string, Value>, listed: set<string>)

  /** The exceptions the layer tells apart. `ValueError` and `TypeError` stand for those
      classes together with their subclasses (pydantic v1's `ValidationError`,
      `UnicodeDecodeError`, ...), as `except (ValueError, TypeError)` catches them;
      `OtherError` is any exception outside both. */
  datatype PyError = ValueError | TypeError | OtherError(name: string)

  /** The result of a Python call: the returned value, or the raised exception. */
  datatype Outcome<T> = Returned(value: T) | Raised(error: PyError)

  /** The attributes of a value. Attributes of built-in values are not modelled. */
  function Attributes(v: Value): map<string, Value> {
    if v.Object? then v.attrs else map[]
  }

  predicate HasAttr(v: Value, name: string) {
    name in Attributes(v)
  }

  /** The names `dir()` returns for a value that `getattr` can read. A `dir()` name
      without an attribute is not modelled, and built-in values list nothing. */
  function DirNames(v: Value): (names: set<string>)
    ensures names <= Attributes(v).Keys
    ensures v.Object? ==> names == v.listed * v.attrs.Keys
  {
    if v.Object? then v.listed * v.attrs.Keys else {}
  }

  predicate StartsWith(s: string, prefix: string) {
    |prefix| <= |s| && s[..|prefix|] == prefix
  }

  /** `PYDANTIC_V2`: pydantic has a `__version__` and it starts with `"2."`. */
  function IsPydanticV2(version: Option<string>): (v2: bool)
    ensures v2 <==> version.Some? && |version.value| >= 2 && version.value[0] == '2' && version.value[1] == '.'
  {
    version.Some? && StartsWith(version.value, "2.")
  }

  /** The version test reads the major version from the first two characters only. */
  lemma PydanticVersionExamples()
    ensures IsPydanticV2(Some("2.11.7")) && IsPydanticV2(Some("2."))
    ensures !IsPydanticV2(Some("1.10.13")) && !IsPydanticV2(Some("20.1")) && !IsPydanticV2(Some("2"))
    ensures !IsPydanticV2(None)
  {
  }

  /** The index of the first name of `order` that `attrs` has, if any. */
  function FirstPresent(attrs: map<string, Value>, order: seq<string>): (r: Option<nat>)
    ensures r.Some? ==> r.value < |order| && order[r.value] in attrs
    ensures r.Some? ==> forall j :: 0 <= j < r.value ==> order[j] !in attrs
    ensures r.None? ==> forall j :: 0 <= j < |order| ==> order[j] !in attrs
    decreases |order|
  {
    if order == [] then None
    else if order[0] in attrs then Some(0)
    else
      match FirstPresent(attrs, order[1..])
      case None => None
      case Some(i) => Some(i + 1)
  }

  /** The capabilities `validate_python` looks for, in the order it looks. */
  const ValidationOrder: seq<string> := ["__origin__", "parse_obj", "__call__"]
  /** The capabilities `dump_python` looks for, in the order it looks. */
  const DumpOrder: seq<string> := ["dict", "__dict__"]

  predicate IsConversionError(e: PyError) {
    e == ValueError || e == TypeError
  }

  /** The JSON schema type names the fallback can produce. */
  const JsonSchemaTypes: set<string> := {"string", "integer", "number", "boolean", "array", "object"}

  /** The built-in type names the fallback knows, with their JSON schema types. */
  const BuiltinSchemaTypes: map<string, string> :=
    map["str" := "string", "int" := "integer", "float" := "number",
        "bool" := "boolean", "list" := "array", "dict" := "object"]

  /** The JSON schema type the v1 fallback gives a type name; anything that is not one of
      the six known names, including a `__name__` that is not a string, is "string". */
  function SchemaTypeFor(typeName: Value): (t: string)
    ensures t in JsonSchemaTypes
  {
    if typeName == StrValue("str") then "string"
    else if typeName == StrValue("int") then "integer"
    else if typeName == StrValue("float") then "number"
    else if typeName == StrValue("bool") then "boolean"
    else if typeName == StrValue("list") then "array"
    else if typeName == StrValue("dict") then "object"
    else "string"
  }

  /** The chain of tests in `SchemaTypeFor` is the lookup table `BuiltinSchemaTypes`
      with "string" for every other name. */
  lemma SchemaTypeMatchesTable(typeName: Value)
    ensures SchemaTypeFor(typeName)
         == if typeName.StrValue? && typeName.s in BuiltinSchemaTypes then BuiltinSchemaTypes[typeName.s] else "string"
  {
  }

  /** The v1 stand-in for pydantic's `TypeAdapter`: it only remembers its type. */
  datatype TypeAdapter = TypeAdapter(type_: Value) {

    /** `validate_python`. `parsed` is what `type_.parse_obj(data)` does and `called`
        what `type_(data)` does; each matters only on the branch that makes that call.
        The first capability of `ValidationOrder` the type has decides the branch. */
    function ValidatePython(data: Value, parsed: Outcome<Value>, called: Outcome<Value>): (r: Outcome<Value>)
      ensures FirstPresent(Attributes(type_), ValidationOrder) == Some(0) ==> r == Returned(data)
      ensures FirstPresent(Attributes(type_), ValidationOrder) == Some(1) ==> r == parsed
      ensures FirstPresent(Attributes(type_), ValidationOrder) == Some(2) ==>
                r == if called.Raised? && IsConversionError(called.error) then Returned(data) else called
      ensures FirstPresent(Attributes(type_), ValidationOrder) == None ==> r == Returned(data)
    {
      if HasAttr(type_, "__origin__") then Returned(data)
      else if HasAttr(type_, "parse_obj") then parsed
      else if HasAttr(type_, "__call__") then
        if called.Raised? && IsConversionError(called.error) then Returned(data) else called
      else Returned(data)
    }

    /** `dump_python`. `dumped` is what `data.dict()` does. The `mode` is ignored. */
    function DumpPython(data: Value, mode: string, dumped: Outcome<Value>): (r: Outcome<Value>)
      ensures FirstPresent(Attributes(data), DumpOrder) == Some(0) ==> r == dumped
      ensures FirstPresent(Attributes(data), DumpOrder) == Some(1) ==> r == Returned(Attributes(data)["__dict__"])
      ensures FirstPresent(Attributes(data), DumpOrder) == None ==> r == Returned(data)
    {
      if HasAttr(data, "dict") then dumped
      else if HasAttr(data, "__dict__") then Returned(Attributes(data)["__dict__"])
      else Returned(data)
    }

    /** `json_schema`. `ownSchema` is what `type_.schema()` does and `typeText` is
        `str(type_)`, the name used when the type has no `__name__`. */
    function JsonSchema(ownSchema: Outcome<Value>, typeText: string): (r: Outcome<Value>)
      ensures HasAttr(type_, "schema") ==> r == ownSchema
      ensures !HasAttr(type_, "schema") ==>
                && r.Returned? && r.value.DictValue?
                && r.value.entries.Keys == {"type"}
                && r.value.entries["type"].StrValue?
                && r.value.entries["type"].s in JsonSchemaTypes
                && r.value.entries["type"] == StrValue(SchemaTypeFor(TypeName(type_, typeText)))
    {
      if HasAttr(type_, "schema") then ownSchema
      else Returned(DictValue(map["type" := StrValue(SchemaTypeFor(TypeName(type_, typeText)))]))
    }
  }

  /** `getattr(type_, '__name__', str(type_))`. */
  function TypeName(type_: Value, typeText: string): Value {
    if HasAttr(type_, "__name__") then Attributes(type_)["__name__"] else StrValue(typeText)
  }

  /** Validation never turns a `ValueError` or `TypeError` of calling the type into a
      failure: the only exceptions it lets out come from `parse_obj`, or are other
      exceptions raised by calling the type. */
  lemma ValidationRaisesOnlyForeignErrors(adapter: TypeAdapter, data: Value, parsed: Outcome<Value>, called: Outcome<Value>)
    ensures var r := adapter.ValidatePython(data, parsed, called);
            r.Raised? ==> r == parsed || (r == called && !IsConversionError(called.error))
  {
  }

  /** A generic alias is never validated, whatever else the type offers. */
  lemma GenericAliasPassesThrough(adapter: TypeAdapter, data: Value, parsed: Outcome<Value>, called: Outcome<Value>)
    requires HasAttr(adapter.type_, "__origin__")
    ensures adapter.ValidatePython(data, parsed, called) == Returned(data)
  {
  }

  /** `dump_python` gives the same result in every mode. */
  lemma DumpIgnoresMode(adapter: TypeAdapter, data: Value, mode1: string, mode2: string, dumped: Outcome<Value>)
    ensures adapter.DumpPython(data, mode1, dumped) == adapter.DumpPython(data, mode2, dumped)
  {
  }

  /** The v1 `get_type_adapter`. */
  function GetTypeAdapter(type_: Value): (adapter: TypeAdapter)
    ensures adapter.type_ == type_
  {
    TypeAdapter(type_)
  }

  /** The attributes seen through a stack of attribute maps, nearest first: a name is
      found in the first map that holds it. */
  function LayeredAttrs(layers: seq<map<string, Value>>): map<string, Value> {
    if layers == [] then map[] else LayeredAttrs(layers[1..]) + layers[0]
  }

  /** A name held by any layer is visible. */
  lemma {:induction false} LayeredAttrsHas(layers: seq<map<string, Value>>, i: nat, name: string)
    requires i < |layers| && name in layers[i]
    ensures name in LayeredAttrs(layers)
  {
    if name !in layers[0] {
      LayeredAttrsHas(layers[1..], i - 1, name);
    }
  }

  /** A visible name comes from the first layer that holds it, with that layer's value. */
  lemma {:induction false} LayeredAttrsSource(layers: seq<map<string, Value>>, name: string) returns (i: nat)
    requires name in LayeredAttrs(layers)
    ensures i < |layers| && name in layers[i] && LayeredAttrs(layers)[name] == layers[i][name]
    ensures forall j :: 0 <= j < i ==> name !in layers[j]
  {
    if name in layers[0] {
      i := 0;
    } else {
      var k := LayeredAttrsSource(layers[1..], name);
      i := k + 1;
    }
  }

  /** The own attributes of each of `classes`, in order. */
  function AttrsOf(classes: seq<ModelClass>): (layers: seq<map<string, Value>>)
    reads classes
    ensures |layers| == |classes|
    ensures forall i :: 0 <= i < |classes| ==> layers[i] == classes[i].attrs
  {
    if classes == [] then [] else [classes[0].attrs] + AttrsOf(classes[1..])
  }

  /** A pydantic model class. `attrs` holds the attributes set on the class itself,
      which `set_model_config` changes in place; `bases` is the rest of its method
      resolution order, the classes it inherits from, nearest first. */
  class ModelClass {
    var attrs: map<string, Value>
    const bases: seq<ModelClass>

    constructor (attrs: map<string, Value>, bases: seq<ModelClass>)
      ensures this.attrs == attrs && this.bases == bases
    {
      this.attrs := attrs;
      this.bases := bases;
    }

    /** A class is not among its own bases. */
    predicate Valid() {
      this !in bases
    }

    /** The attributes as `hasattr` and `getattr` on the class see them. */
    function Visible(): map<string, Value>
      reads this, bases
    {
      LayeredAttrs([attrs] + AttrsOf(bases))
    }
  }

  /** The attribute where the v1 `set_model_config` parks a configuration. */
  const PendingConfigName := "_pending_config"

  /** `attr.startswith('_')`. */
  predicate IsPrivateName(name: string) {
    |name| > 0 && name[0] == '_'
  }

  /** `getattr(cls, 'Config', None)`. */
  function ConfigClass(classAttrs: map<string, Value>): Value {
    if "Config" in classAttrs then classAttrs["Config"] else NoneValue
  }

  /** The v1 `get_model_config`: `{}` without a `Config` (or with `Config = None`), and
      otherwise every name `dir()` lists for `Config` that does not start with `_`,
      with its value. */
  method GetModelConfigV1(cls: ModelClass) returns (config: map<string, Value>)
    ensures ConfigClass(cls.Visible()) == NoneValue ==> config == map[]
    ensures ConfigClass(cls.Visible()) != NoneValue ==>
              forall name :: name in config <==> name in DirNames(ConfigClass(cls.Visible())) && !IsPrivateName(name)
    ensures forall name :: name in config ==>
              name in Attributes(ConfigClass(cls.Visible())) && config[name] == Attributes(ConfigClass(cls.Visible()))[name]
  {
    var configClass := ConfigClass(cls.Visible());
    if configClass == NoneValue {
      return map[];
    }
    config := map[];
    var members := Attributes(configClass);
    var pending := DirNames(configClass);
    while pending != {}
      invariant pending <= DirNames(configClass)
      invariant forall name :: name in config <==> name in DirNames(configClass) && name !in pending && !IsPrivateName(name)
      invariant forall name :: name in config ==> name in members && config[name] == members[name]
      decreases pending
    {
      var name :| name in pending;
      if !IsPrivateName(name) {
        config := config[name := members[name]];
      }
      pending := pending - {name};
    }
  }

  /** The v2 `get_model_config`: `model_config`, or `{}` when the class has none. */
  function GetModelConfigV2(cls: ModelClass): (config: Value)
    reads cls, cls.bases
    ensures "model_config" !in cls.Visible() ==> config == DictValue(map[])
    ensures "model_config" in cls.Visible() ==> config == cls.Visible()["model_config"]
  {
    var visible := cls.Visible();
    if "model_config" in visible then visible["model_config"] else DictValue(map[])
  }

  /** The class attributes after the v1 `set_model_config`: the configuration is parked
      only when nothing is parked yet; every other attribute is kept. */
  function WithPendingConfig(classAttrs: map<string, Value>, config: map<string, Value>): (r: map<string, Value>)
    ensures r.Keys == classAttrs.Keys + {PendingConfigName}
    ensures forall name :: name in classAttrs ==> r[name] == classAttrs[name]
    ensures PendingConfigName !in classAttrs ==> r[PendingConfigName] == DictValue(config)
  {
    if PendingConfigName in classAttrs then classAttrs else classAttrs[PendingConfigName := DictValue(config)]
  }

  /** The first configuration parked wins: later calls never overwrite it. */
  lemma {:induction false} FirstWriterWins(classAttrs: map<string, Value>, configs: seq<map<string, Value>>)
    requires PendingConfigName !in classAttrs && |configs| > 0
    ensures ParkAll(classAttrs, configs) == WithPendingConfig(classAttrs, configs[0])
    ensures ParkAll(classAttrs, configs)[PendingConfigName] == DictValue(configs[0])
  {
    ParkAllAfterFirst(WithPendingConfig(classAttrs, configs[0]), configs[1..]);
  }

  /** Once something is parked, further calls leave the attributes as they are. */
  lemma {:induction false} ParkAllAfterFirst(classAttrs: map<string, Value>, configs: seq<map<string, Value>>)
    requires PendingConfigName in classAttrs
    ensures ParkAll(classAttrs, configs) == classAttrs
    decreases |configs|
  {
    if configs != [] {
      ParkAllAfterFirst(WithPendingConfig(classAttrs, configs[0]), configs[1..]);
    }
  }

  /** The attributes after calling `set_model_config` with each of `configs` in turn. */
  function ParkAll(classAttrs: map<string, Value>, configs: seq<map<string, Value>>): map<string, Value>
    decreases |configs|
  {
    if configs == [] then classAttrs else ParkAll(WithPendingConfig(classAttrs, configs[0]), configs[1..])
  }

  /** The v1 `set_model_config`, which changes the class in place. `hasattr` also finds
      a configuration parked on a base class, and then nothing is written. */
  method SetModelConfigV1(cls: ModelClass, config: map<string, Value>)
    requires cls.Valid()
    modifies cls
    ensures PendingConfigName in old(cls.Visible()) ==> cls.attrs == old(cls.attrs)
    ensures PendingConfigName !in old(cls.Visible()) ==> cls.attrs == old(cls.attrs)[PendingConfigName := DictValue(config)]
    ensures cls.Visible() == WithPendingConfig(old(cls.Visible()), config)
  {
    if PendingConfigName !in cls.Visible() {
      var inherited := AttrsOf(cls.bases);
      cls.attrs := cls.attrs[PendingConfigName := DictValue(config)];
      assert AttrsOf(cls.bases) == inherited;
      assert ([cls.attrs] + inherited)[1..] == inherited == ([old(cls.attrs)] + inherited)[1..];
    }
  }

  /** A configuration parked on a base class blocks the subclass: the subclass's own
      `set_model_config` call then writes nothing, and the subclass sees the base's. */
  method ParkOnBaseThenSubclass(base: ModelClass, derived: ModelClass, first: map<string, Value>, second: map<string, Value>)
    requires base.Valid() && derived.Valid() && base in derived.bases
    requires PendingConfigName !in base.Visible()
    modifies base, derived
    ensures base.attrs == old(base.attrs)[PendingConfigName := DictValue(first)]
    ensures derived.attrs == old(derived.attrs)
    ensures PendingConfigName in derived.Visible()
  {
    SetModelConfigV1(base, first);
    var k :| 0 <= k < |derived.bases| && derived.bases[k] == base;
    var layers := [derived.attrs] + AttrsOf(derived.bases);
    assert layers[k + 1] == base.attrs;
    LayeredAttrsHas(layers, k + 1, PendingConfigName);
    SetModelConfigV1(derived, second);
  }

  /** The class attributes after the v2 `set_model_config`: `model_config` is
      overwritten unconditionally; every other attribute is kept. */
  function WithModelConfig(classAttrs: map<string, Value>, config: map<string, Value>): (r: map<string, Value>)
    ensures r.Keys == classAttrs.Keys + {"model_config"}
    ensures r["model_config"] == DictValue(config)
    ensures forall name :: name in classAttrs && name != "model_config" ==> r[name] == classAttrs[name]
  {
    classAttrs["model_config" := DictValue(config)]
  }

  /** Unlike the v1 rule, in v2 the last configuration written wins, and the v2
      `get_model_config` then reads it back. */
  lemma LastWriterWinsV2(classAttrs: map<string, Value>, first: map<string, Value>, second: map<string, Value>)
    ensures WithModelConfig(WithModelConfig(classAttrs, first), second) == WithModelConfig(classAttrs, second)
  {
  }

  /** The v2 `set_model_config`, which sets `model_config` on the class itself. */
  method SetModelConfigV2(cls: ModelClass, config: map<string, Value>)
    requires cls.Valid()
    modifies cls
    ensures cls.attrs == WithModelConfig(old(cls.attrs), config)
    ensures cls.Visible() == WithModelConfig(old(cls.Visible()), config)
    ensures GetModelConfigV2(cls) == DictValue(config)
  {
    var inherited := AttrsOf(cls.bases);
    cls.attrs := cls.attrs["model_config" := DictValue(config)];
    assert AttrsOf(cls.bases) == inherited;
    assert ([cls.attrs] + inherited)[1..] == inherited == ([old(cls.attrs)] + inherited)[1..];
  }

  /** The arguments the v1 `create_model_validator` passes to `root_validator`. */
  datatype RootValidatorOptions = RootValidatorOptions(pre: bool, allowReuse: bool)

  /** The v1 `create_model_validator(mode)`: a pre-validator exactly for mode "before"
      (case-sensitive; "after", "wrap" and every other string give a post-validator),
      always reusable. */
  function ModelValidatorOptionsV1(mode: string): (options: RootValidatorOptions)
    ensures options.allowReuse
    ensures options.pre <==> mode == "before"
  {
    RootValidatorOptions(mode == "before", true)
  }

  /** The mode `create_model_validator` uses when called without one. */
  const DefaultValidatorMode := "before"

  /** `create_model_validator()` with no argument builds a pre-validator. */
  lemma DefaultValidatorIsPre()
    ensures ModelValidatorOptionsV1(DefaultValidatorMode) == RootValidatorOptions(true, true)
  {
  }

  /** The `field_info` of a v1 `ModelField`, as far as the layer looks at it: its
      `extra` dictionary, or `None` when it has no `extra` attribute. */
  datatype FieldInfoV1 = FieldInfoV1(extra: Option<map<string, Value>>)

  /** A v1 `ModelField`: its `type_`, its `default`, and its `field_info` (`None` when
      it has no such attribute). */
  datatype ModelField = ModelField(type_: Value, defaultValue: Value, fieldInfo: Option<FieldInfoV1>)

  /** What `get_field_info` receives: a v1 `ModelField`, or anything else. */
  datatype FieldArgument = ModelFieldArgument(field: ModelField) | OtherArgument(value: Value)

  /** The key under which pydantic v1 nests `Field(json_schema_extra=...)` in `extra`. */
  const NestedExtraKey := "json_schema_extra"

  /** The `json_schema_extra` the v1 `FieldInfoCompat` ends with: the nested
      `json_schema_extra` entry of `extra` when there is one, otherwise the whole of
      `extra`; and `{}` when there is no `extra` or the candidate is not a dictionary. */
  function SchemaExtra(field: ModelField): (extra: map<string, Value>)
    ensures field.fieldInfo.None? || field.fieldInfo.value.extra.None? ==> extra == map[]
    ensures field.fieldInfo.Some? && field.fieldInfo.value.extra.Some? ==>
              var e := field.fieldInfo.value.extra.value;
              && (NestedExtraKey in e && e[NestedExtraKey].DictValue? ==> extra == e[NestedExtraKey].entries)
              && (NestedExtraKey in e && !e[NestedExtraKey].DictValue? ==> extra == map[])
              && (NestedExtraKey !in e ==> extra == e)
  {
    var candidate :=
      if field.fieldInfo.Some? && field.fieldInfo.value.extra.Some? then
        var e := field.fieldInfo.value.extra.value;
        if NestedExtraKey in e then e[NestedExtraKey] else DictValue(e)
      else DictValue(map[]);
    if candidate.DictValue? then candidate.entries else map[]
  }

  /** A nested `json_schema_extra` hides every sibling entry of `extra`. */
  lemma NestedExtraTakesPrecedence(type_: Value, defaultValue: Value, e1: map<string, Value>, e2: map<string, Value>)
    requires NestedExtraKey in e1 && NestedExtraKey in e2 && e1[NestedExtraKey] == e2[NestedExtraKey]
    ensures SchemaExtra(ModelField(type_, defaultValue, Some(FieldInfoV1(Some(e1)))))
         == SchemaExtra(ModelField(type_, defaultValue, Some(FieldInfoV1(Some(e2)))))
  {
  }

  /** The v1 `FieldInfoCompat`, which mimics a v2 `FieldInfo`. */
  class FieldInfoCompat {
    var annotation: Value
    var defaultValue: Value
    var jsonSchemaExtra: Value

    /** `json_schema_extra` is always a dictionary. */
    ghost predicate Valid()
      reads this
    {
      jsonSchemaExtra.DictValue?
    }

    /** Built as the source does: start from `{}`, take the nested entry or the whole
        `extra`, then fall back to `{}` when that is not a dictionary. */
    constructor (field: ModelField)
      ensures Valid()
      ensures annotation == field.type_ && defaultValue == field.defaultValue
      ensures jsonSchemaExtra == DictValue(SchemaExtra(field))
    {
      annotation := field.type_;
      defaultValue := field.defaultValue;
      jsonSchemaExtra := DictValue(map[]);
      new;
      if field.fieldInfo.Some? && field.fieldInfo.value.extra.Some? {
        var extraDict := field.fieldInfo.value.extra.value;
        if NestedExtraKey in extraDict {
          jsonSchemaExtra := extraDict[NestedExtraKey];
        } else {
          jsonSchemaExtra := DictValue(extraDict);
        }
      }
      if !jsonSchemaExtra.DictValue? {
        jsonSchemaExtra := DictValue(map[]);
      }
    }
  }

  /** What the v1 `get_field_info` returns. */
  datatype FieldInfo = Compat(info: FieldInfoCompat) | Unchanged(value: Value)

  /** The v1 `get_field_info`: a fresh `FieldInfoCompat` for a `ModelField`, and any
      other argument unchanged. The field name is unused. */
  method GetFieldInfoV1(field: FieldArgument, fieldName: Option<string>) returns (r: FieldInfo)
    ensures field.OtherArgument? ==> r == Unchanged(field.value)
    ensures field.ModelFieldArgument? ==>
              && r.Compat? && fresh(r.info) && r.info.Valid()
              && r.info.annotation == field.field.type_
              && r.info.defaultValue == field.field.defaultValue
              && r.info.jsonSchemaExtra == DictValue(SchemaExtra(field.field))
  {
    if field.ModelFieldArgument? {
      var info := new FieldInfoCompat(field.field);
      return Compat(info);
    }
    return Unchanged(field.value);
  }
}
