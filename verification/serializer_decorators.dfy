/** The class-based serializer decorator ModelSerializerDecorator
    (django_utz/decorators/serializers/decorators.py) and the `modelserializer`
    built from it with `transform_utz_decorator`. The decorator object holds the
    serializer class and updates it in place: `UTZMeta._decorated` when it is
    constructed, then one UTZDateTimeField per included model datetime field when
    it is called. As written, that second step can never add a field: building
    one calls `get_utzdatetimefield_for_field` without its second argument, and
    "__all__" becomes a list of model Field objects that no name equals. */
module SerializerDecorators {
  import opened Common
  import opened Schema
  import opened ConfigStore
  import opened ModelPreparation
  import opened FieldAdding
  import opened SerializerDecoratorFunctions

  /** `validate_auto_add_fields` and `validate_datetime_format`, raising
      SerializerConfigurationError. */
  function ClassValidators(formats: set<string>): map<string, Validator>
  {
    SerializerValidators(SerializerConfigurationError, formats)
  }

  /** `utz_meta and utz_meta._decorated and getattr(utz_meta, "datetime_fields",
      None)` on the serializer's model. Reading `_decorated` from a `UTZMeta` that
      does not define it raises AttributeError. */
  function ModelDecoratedTest(m: ModelClass): (r: Result<bool>)
    ensures r.Err? <==> m.meta.NotAClass? || (m.meta.MetaClass? && "_decorated" !in m.meta.configs)
    ensures r.Err? ==> r.error == AttributeError
    ensures r == Ok(true) <==> MetaIsDecorated(m.meta) && Truthy(MetaGet(m.meta, DATETIME_FIELDS, VNone))
  {
    match m.meta
    case NoMeta => Ok(false)
    case NotAClass => Err(AttributeError)
    case MetaClass(configs) =>
      if "_decorated" !in configs then Err(AttributeError)
      else Ok(Truthy(configs["_decorated"]) && Truthy(MetaGet(m.meta, DATETIME_FIELDS, VNone)))
  }

  /** `check_model_serializer`: a ModelSerializer, over a decorated model, with a
      `UTZMeta` whose `auto_add_fields` is set. The class test is made on the
      model's `UTZMeta`, which the decorated test already requires to be a class. */
  function CheckModelSerializer(s: SerializerClass, m: ModelClass): (r: Result<SerializerClass>)
    ensures r.Ok? ==> r.value == s && s.meta.MetaClass? && m.meta.MetaClass?
    ensures r.Ok? <==> s.isModelSerializer && ModelDecoratedTest(m) == Ok(true)
                       && Truthy(MetaGet(s.meta, AUTO_ADD_FIELDS, VNone))
    ensures !s.isModelSerializer ==> r == Err(TypeError)
    ensures s.isModelSerializer && ModelDecoratedTest(m).Err? ==> r == Err(AttributeError)
    ensures s.isModelSerializer && ModelDecoratedTest(m) == Ok(false) ==> r == Err(ModelError)
    ensures s.isModelSerializer && ModelDecoratedTest(m) == Ok(true) && s.meta.NoMeta? ==> r == Err(AttributeError)
    ensures s.isModelSerializer && ModelDecoratedTest(m) == Ok(true) && !s.meta.NoMeta? && r.Err? ==>
              r.error == SerializerConfigurationError
  {
    if !s.isModelSerializer then Err(TypeError)
    else
      match ModelDecoratedTest(m)
      case Err(e) => Err(e)
      case Ok(decorated) =>
        if !decorated then Err(ModelError)
        else if s.meta.NoMeta? then Err(AttributeError)
        else if m.meta.NotAClass? then Err(SerializerConfigurationError)
        else if FirstUnset(s.meta, REQUIRED_SERIALIZER_CLASS_CONFIGS).Some? then Err(SerializerConfigurationError)
        else Ok(s)
  }

  /** `serializer_meta.fields`, or [] when it is not set. */
  function IncludedFields(s: SerializerClass): Value
  {
    if s.metaFields.Some? then s.metaFields.value else VList([])
  }

  /** `serializer_meta.exclude`, or [] when it is not set. */
  function ExcludedFields(s: SerializerClass): Value
  {
    if s.metaExclude.Some? then s.metaExclude.value else VList([])
  }

  predicate AllFields(s: SerializerClass)
  {
    s.metaFields == Some(VStr("__all__"))
  }

  /** The names of the model's `_meta.fields`: what "__all__" stands for. */
  function ConcreteFieldNames(m: ModelClass): (r: Value)
    ensures r.VList? && (r.items == [] <==> ConcreteFields(m.fields) == [])
    ensures forall x :: x in r.items <==> exists f :: f in ConcreteFields(m.fields) && x == VStr(f.name)
  {
    var cf := ConcreteFields(m.fields);
    var r := VList(seq(|cf|, i requires 0 <= i < |cf| => VStr(cf[i].name)));
    assert forall f :: f in cf ==> VStr(f.name) in r.items by {
      forall f | f in cf ensures VStr(f.name) in r.items {
        var i :| 0 <= i < |cf| && cf[i] == f;
        assert r.items[i] == VStr(f.name);
      }
    }
    r
  }

  /** `not included_fields` is false. "__all__" has become `_meta.fields` (or its
      names, once corrected); either is empty exactly when the model has no
      concrete field. */
  predicate HasIncludedFields(s: SerializerClass, m: ModelClass)
  {
    if AllFields(s) then ConcreteFields(m.fields) != [] else Truthy(IncludedFields(s))
  }

  /** `not (fieldname not in included_fields or fieldname in excluded_fields)`.
      As written, "__all__" is a list of model Field objects, which equal no name;
      `corrected` compares against the fields' names instead. */
  function Included(s: SerializerClass, m: ModelClass, corrected: bool, f: Value): Result<bool>
  {
    if AllFields(s) && !corrected then Ok(false)
    else
      var inc := if AllFields(s) then ConcreteFieldNames(m) else IncludedFields(s);
      match Contains(inc, f)
      case Err(e) => Err(e)
      case Ok(isIn) =>
        if !isIn then Ok(false)
        else
          match Contains(ExcludedFields(s), f)
          case Err(e) => Err(e)
          case Ok(isOut) => Ok(!isOut)
  }

  /** The adding policy of `prepare_serializer`. As written the field is built by
      `get_utzdatetimefield_for_field(fieldname)`, one argument short, which raises
      TypeError; corrected, `Meta` is passed and the format is read through
      `get_config`. The kwargs entry is updated in place even when empty. */
  function ClassAdding(formats: set<string>, s: SerializerClass, m: ModelClass, corrected: bool): Adding
  {
    Adding((f: Value) => Included(s, m, corrected, f),
           if corrected then Lookup(ClassValidators(formats), s.meta, DATETIME_FORMAT, VNone) else Err(TypeError),
           true)
  }

  /** `prepare_serializer()` on serializer `s` over model `m`. */
  function PreparedClassBased(formats: set<string>, s: SerializerClass, m: ModelClass, corrected: bool): SerializerOutcome
  {
    if !(m.meta.MetaClass? && DATETIME_FIELDS in m.meta.configs) then SerializerOutcome(s, Some(AttributeError))
    else if !HasIncludedFields(s, m) then SerializerOutcome(s, None)
    else
      match Lookup(ClassValidators(formats), s.meta, AUTO_ADD_FIELDS, VNone)
      case Err(e) => SerializerOutcome(s, Some(e))
      case Ok(auto) =>
        if !Truthy(auto) then SerializerOutcome(s, None)
        else
          match Iterate(m.meta.configs[DATETIME_FIELDS])
          case Err(e) => SerializerOutcome(s, Some(e))
          case Ok(items) => AddFields(s, ClassAdding(formats, s, m, corrected), items)
  }

  /** `__call__`: prepare, then reject a result that is not a ModelSerializer. */
  function CallOutcome(o: SerializerOutcome): SerializerOutcome
  {
    if o.error.None? && !o.cls.isModelSerializer then SerializerOutcome(o.cls, Some(TypeError)) else o
  }

  /** `transform_utz_decorator(ModelSerializerDecorator)(s)`: check, mark, then
      call. */
  function Decorated(formats: set<string>, s: SerializerClass, m: ModelClass): SerializerOutcome
  {
    match CheckModelSerializer(s, m)
    case Err(e) => SerializerOutcome(s, Some(e))
    case Ok(_) => CallOutcome(PreparedClassBased(formats, MarkSerializerDecorated(s), m, false))
  }

  class ModelSerializerDecorator {
    /** The format strings `strftime` accepts. */
    const formats: set<string>
    /** `serializer.Meta.model` */
    const model: ModelClass
    var serializer: SerializerClass

    /** The part of `__init__` after `check_model_serializer`: the serializer is
        stored. */
    constructor Init(formats: set<string>, s: SerializerClass, m: ModelClass)
      ensures this.formats == formats && model == m && serializer == s
    {
      this.formats := formats;
      model := m;
      serializer := s;
    }

    /** `get_config(attr, default)`: the value on the serializer's `UTZMeta` or the
        default, validated when it is not None. */
    method GetConfig(attr: string, default: Value) returns (r: Result<Value>)
      ensures r == Lookup(ClassValidators(formats), serializer.meta, attr, default)
    {
      if serializer.meta.NoMeta? {
        return Err(AttributeError);
      }
      var value := MetaGet(serializer.meta, attr, default);
      var validators := ClassValidators(formats);
      if value != VNone && attr in validators && !Passes(validators[attr].check, value) {
        return Err(validators[attr].error);
      }
      return Ok(value);
    }

    /** `set_config(attr, value)`: a name outside `all_configs` other than
        `_decorated` is rejected, a non-None value is validated, then written. */
    method SetConfig(attr: string, value: Value) returns (e: Option<Error>)
      modifies this
      ensures var r := Store(SERIALIZER_CLASS_CONFIGS, ClassValidators(formats), SerializerConfigurationError,
                             old(serializer).meta, attr, value);
              (e.None? <==> r.Ok?) && (e.Some? ==> e.value == r.error)
              && serializer == (if r.Ok? then old(serializer).(meta := r.value) else old(serializer))
    {
      if attr != "_decorated" && attr !in SERIALIZER_CLASS_CONFIGS {
        return Some(SerializerConfigurationError);
      }
      var validators := ClassValidators(formats);
      if value != VNone && attr in validators && !Passes(validators[attr].check, value) {
        return Some(validators[attr].error);
      }
      if !serializer.meta.MetaClass? {
        return Some(AttributeError);
      }
      serializer := serializer.(meta := MetaClass(serializer.meta.configs[attr := value]));
      return None;
    }

    /** `prepare_serializer()`, as written. */
    method PrepareSerializer() returns (e: Option<Error>)
      modifies this
      ensures SerializerOutcome(serializer, e) == PreparedClassBased(formats, old(serializer), model, false)
    {
      if !(model.meta.MetaClass? && DATETIME_FIELDS in model.meta.configs) {
        return Some(AttributeError);
      }
      var datetimeFields := model.meta.configs[DATETIME_FIELDS];
      if !HasIncludedFields(serializer, model) {
        return None;
      }
      var auto := GetConfig(AUTO_ADD_FIELDS, VNone);
      if auto.Err? {
        return Some(auto.error);
      }
      if !Truthy(auto.value) {
        return None;
      }
      var items := Iterate(datetimeFields);
      if items.Err? {
        return Some(items.error);
      }
      var o := AddFieldsLoop(serializer, ClassAdding(formats, serializer, model, false), items.value);
      serializer := o.cls;
      e := o.error;
    }

    /** `__call__` */
    method Call() returns (r: Result<SerializerClass>)
      modifies this
      ensures var o := CallOutcome(PreparedClassBased(formats, old(serializer), model, false));
              serializer == o.cls && r == (if o.error.Some? then Err(o.error.value) else Ok(o.cls))
    {
      var e := PrepareSerializer();
      if e.Some? {
        return Err(e.value);
      }
      if !serializer.isModelSerializer {
        return Err(TypeError);
      }
      return Ok(serializer);
    }
  }

  /** Construction: `check_model_serializer`, then the serializer is stored, then
      the base initialiser sets `_decorated`. */
  method Create(formats: set<string>, s: SerializerClass, m: ModelClass) returns (r: Result<ModelSerializerDecorator>)
    ensures r.Err? <==> CheckModelSerializer(s, m).Err?
    ensures r.Err? ==> r.error == CheckModelSerializer(s, m).error
    ensures r.Ok? ==> fresh(r.value) && r.value.formats == formats && r.value.model == m
                      && r.value.serializer == MarkSerializerDecorated(s)
  {
    var checked := CheckModelSerializer(s, m);
    if checked.Err? {
      return Err(checked.error);
    }
    var d := new ModelSerializerDecorator.Init(formats, checked.value, m);
    var e := d.SetConfig("_decorated", VBool(true));
    assert e.None?;
    return Ok(d);
  }

  /** `modelserializer(s)`: construct the decorator, then call it. */
  method Decorate(formats: set<string>, s: SerializerClass, m: ModelClass) returns (o: SerializerOutcome)
    ensures o == Decorated(formats, s, m)
  {
    var d := Create(formats, s, m);
    if d.Err? {
      return SerializerOutcome(s, Some(d.error));
    }
    var r := d.value.Call();
    o := SerializerOutcome(d.value.serializer, if r.Err? then Some(r.error) else None);
  }

  /** Preparation keeps a ModelSerializer a ModelSerializer and touches only its
      attributes and `Meta.extra_kwargs`; so a checked serializer is marked
      decorated whatever preparation does, and the check in `__call__` never
      fires. */
  lemma PreparedKeepsClass(formats: set<string>, s: SerializerClass, m: ModelClass, corrected: bool)
    ensures var o := PreparedClassBased(formats, s, m, corrected);
            o.cls == s.(attrs := o.cls.attrs, extraKwargs := o.cls.extraKwargs)
  {
    if m.meta.MetaClass? && DATETIME_FIELDS in m.meta.configs && Iterate(m.meta.configs[DATETIME_FIELDS]).Ok? {
      AddFieldsKeepsClass(s, ClassAdding(formats, s, m, corrected), Iterate(m.meta.configs[DATETIME_FIELDS]).value);
    }
  }

  lemma MarkedEvenWhenPreparationFails(formats: set<string>, s: SerializerClass, m: ModelClass)
    requires CheckModelSerializer(s, m).Ok?
    ensures var o := Decorated(formats, s, m);
            MetaIsDecorated(o.cls.meta)
            && o == PreparedClassBased(formats, MarkSerializerDecorated(s), m, false)
  {
    PreparedKeepsClass(formats, MarkSerializerDecorated(s), m, false);
  }

  /** As written, the decorator never adds a field: whatever the serializer and
      the model, the decorated class has exactly the attributes it had. */
  lemma AsWrittenNeverAddsFields(formats: set<string>, s: SerializerClass, m: ModelClass)
    ensures Decorated(formats, s, m).cls.attrs == s.attrs
  {
    if CheckModelSerializer(s, m).Ok? {
      var s1 := MarkSerializerDecorated(s);
      if m.meta.MetaClass? && DATETIME_FIELDS in m.meta.configs && Iterate(m.meta.configs[DATETIME_FIELDS]).Ok? {
        NothingAddedWithoutField(s1, ClassAdding(formats, s1, m, false), Iterate(m.meta.configs[DATETIME_FIELDS]).value);
      }
    }
  }

  /** ... and, once it reaches the loop over string names with `auto_add_fields`
      true, it fails with TypeError exactly when some datetime field is included
      and not already declared on the serializer: the case it exists for. */
  lemma AsWrittenFailsOnIncludedField(formats: set<string>, s: SerializerClass, m: ModelClass, items: seq<Value>)
    requires CheckModelSerializer(s, m).Ok? && HasIncludedFields(s, m)
    requires MetaGet(s.meta, AUTO_ADD_FIELDS, VNone) == VBool(true)
    requires m.meta.MetaClass? && DATETIME_FIELDS in m.meta.configs
    requires Iterate(m.meta.configs[DATETIME_FIELDS]) == Ok(items)
    requires forall i :: 0 <= i < |items| ==> items[i].VStr? && Included(s, m, false, items[i]).Ok?
    ensures var o := Decorated(formats, s, m);
            (o.error.None? <==>
               forall i :: 0 <= i < |items| && Included(s, m, false, items[i]) == Ok(true) ==> items[i].s in s.attrs)
            && (o.error.Some? ==> o.error == Some(TypeError))
  {
    var s1 := MarkSerializerDecorated(s);
    forall i | 0 <= i < |items| ensures Included(s1, m, false, items[i]) == Included(s, m, false, items[i]) {}
    PreparedKeepsClass(formats, s1, m, false);
    FailsOnFirstWantedField(s1, ClassAdding(formats, s1, m, false), items);
  }

  /** As written, "__all__" includes nothing: preparation leaves the serializer as
      it was and raises only what the configuration reads raise. */
  lemma AllFieldsMatchesNothing(formats: set<string>, s: SerializerClass, m: ModelClass)
    requires AllFields(s)
    ensures var o := PreparedClassBased(formats, s, m, false);
            var auto := Lookup(ClassValidators(formats), s.meta, AUTO_ADD_FIELDS, VNone);
            o.cls == s
            && (o.error.None? <==>
                  m.meta.MetaClass? && DATETIME_FIELDS in m.meta.configs
                  && (ConcreteFields(m.fields) == []
                      || (auto.Ok? && (!Truthy(auto.value) || Iterate(m.meta.configs[DATETIME_FIELDS]).Ok?))))
  {
    if m.meta.MetaClass? && DATETIME_FIELDS in m.meta.configs && Iterate(m.meta.configs[DATETIME_FIELDS]).Ok? {
      NoStepFailsOrAdds(s, ClassAdding(formats, s, m, false), Iterate(m.meta.configs[DATETIME_FIELDS]).value);
    }
  }

  /** A policy that includes nothing neither raises nor adds. */
  lemma {:induction false} NoStepFailsOrAdds(s: SerializerClass, a: Adding, items: seq<Value>)
    requires forall f :: a.included(f) == Ok(false)
    ensures AddFields(s, a, items) == SerializerOutcome(s, None)
    decreases |items|
  {
    if items != [] {
      assert a.included(items[0]) == Ok(false);
      NoStepFailsOrAdds(s, a, items[1..]);
    }
  }

  /** With the correction, "__all__" includes exactly the model's concrete fields
      not excluded. */
  lemma CorrectedAllIncludesConcreteFields(s: SerializerClass, m: ModelClass, name: string)
    requires AllFields(s) && (s.metaExclude.None? || s.metaExclude.value.VList? || s.metaExclude.value.VTuple?)
    ensures Included(s, m, true, VStr(name))
            == Ok((exists f :: f in ConcreteFields(m.fields) && f.name == name) && VStr(name) !in ExcludedFields(s).items)
  {
    var names := ConcreteFieldNames(m);
    assert VStr(name) in names.items <==> exists f :: f in ConcreteFields(m.fields) && f.name == name;
  }

  /** With the correction, a serializer with `auto_add_fields` true gets one
      UTZDateTimeField per included datetime field it does not already declare,
      built from that field's extra kwargs with the configured format as default;
      every other attribute stays as it was. */
  lemma CorrectedAddsIncludedFields(formats: set<string>, s: SerializerClass, m: ModelClass, items: seq<Value>)
    requires m.meta.MetaClass? && DATETIME_FIELDS in m.meta.configs
    requires Iterate(m.meta.configs[DATETIME_FIELDS]) == Ok(items)
    requires HasIncludedFields(s, m)
    requires MetaGet(s.meta, AUTO_ADD_FIELDS, VNone) == VBool(true)
    requires Lookup(ClassValidators(formats), s.meta, DATETIME_FORMAT, VNone).Ok?
    requires forall i :: 0 <= i < |items| ==> items[i].VStr? && Included(s, m, true, items[i]).Ok?
    ensures var o := PreparedClassBased(formats, s, m, true);
            var fmt := Lookup(ClassValidators(formats), s.meta, DATETIME_FORMAT, VNone).value;
            o.error.None?
            && (forall k :: k in s.attrs ==> k in o.cls.attrs && o.cls.attrs[k] == s.attrs[k])
            && (forall k :: k in o.cls.attrs <==>
                  k in s.attrs || (VStr(k) in items && Included(s, m, true, VStr(k)) == Ok(true)))
            && (forall k :: k in o.cls.attrs && k !in s.attrs ==> o.cls.attrs[k] == NewField(s, k, fmt))
  {
    var a := ClassAdding(formats, s, m, true);
    assert PreparedClassBased(formats, s, m, true) == AddFields(s, a, items);
    AddedFields(s, a, items);
    NoStepFails(s, a, items);
    forall k ensures Wanted(a, items, k) <==> VStr(k) in items && a.included(VStr(k)) == Ok(true)
    {
      if VStr(k) in items {
        var i :| 0 <= i < |items| && items[i] == VStr(k);
      }
    }
  }
}
