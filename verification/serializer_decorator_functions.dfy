/** The function-style serializer decorator `modelserializer`
    (django_utz/decorators/serializers.py): the serializer class must be a
    ModelSerializer over a decorated model and carry a `UTZMeta` with
    `auto_add_fields` set; then, when that config is true, each of the model's
    datetime fields that the serializer includes and does not define itself gets
    a UTZDateTimeField, and `UTZMeta._decorated` is set. */
module SerializerDecoratorFunctions {
  import opened Common
  import opened Schema
  import opened ConfigStore
  import opened ModelPreparation
  import opened FieldAdding
  import ModelDecoratorFunctions

  const AUTO_ADD_FIELDS := "auto_add_fields"
  const DATETIME_FORMAT := "datetime_format"
  const SERIALIZER_CLASS_CONFIGS: seq<string> := [AUTO_ADD_FIELDS, DATETIME_FORMAT]
  const REQUIRED_SERIALIZER_CLASS_CONFIGS: seq<string> := [AUTO_ADD_FIELDS]

  /** The serializer configuration validators: `auto_add_fields` must be a bool,
      `datetime_format` a str that `strftime` accepts (`formats` holds those). */
  function SerializerValidators(err: Error, formats: set<string>): (r: map<string, Validator>)
    ensures r.Keys == {AUTO_ADD_FIELDS, DATETIME_FORMAT}
    ensures r[AUTO_ADD_FIELDS].check == MustBeBool && r[DATETIME_FORMAT].check == MustBeFormat(formats)
    ensures forall k :: k in r ==> r[k].error == err
  {
    map[AUTO_ADD_FIELDS := Validator("validate_auto_add_fields", MustBeBool, err),
        DATETIME_FORMAT := Validator("validate_datetime_format", MustBeFormat(formats), err)]
  }

  /** The names of the model's fields, as values. */
  function FieldNameValues(m: ModelClass): (r: set<Value>)
    ensures forall n :: VStr(n) in r <==> n in AllFieldNames(m.fields)
    ensures forall x :: x in r ==> x.VStr?
  {
    set n | n in AllFieldNames(m.fields) :: VStr(n)
  }

  /** `set(Meta.fields)` when it is declared, else every model field name. */
  function DeclaredFieldSet(s: SerializerClass, m: ModelClass): Result<set<Value>>
  {
    if s.metaFields.Some? then ToSet(s.metaFields.value) else Ok(FieldNameValues(m))
  }

  /** `get_serializer_fields`: the declared field set minus `set(Meta.exclude)`. */
  function SerializerFields(s: SerializerClass, m: ModelClass): (r: Result<set<Value>>)
    ensures r.Ok? <==> DeclaredFieldSet(s, m).Ok? && (s.metaExclude.None? || ToSet(s.metaExclude.value).Ok?)
    ensures r.Err? ==> r.error == TypeError
    ensures r.Ok? ==> forall x :: x in r.value <==>
              x in DeclaredFieldSet(s, m).value && (s.metaExclude.None? || x !in ToSet(s.metaExclude.value).value)
  {
    match DeclaredFieldSet(s, m)
    case Err(e) => Err(e)
    case Ok(fs) =>
      if s.metaExclude.None? then Ok(fs)
      else
        match ToSet(s.metaExclude.value)
        case Err(e) => Err(e)
        case Ok(ex) => Ok(fs - ex)
  }

  /** `fields = "__all__"` is a str, and `set` of a str is the set of its
      characters: no field name longer than one character is ever included. */
  lemma AllStringIsCharacters(s: SerializerClass, m: ModelClass, name: string)
    requires s.metaFields == Some(VStr("__all__"))
    requires |name| != 1
    ensures SerializerFields(s, m).Ok? ==> VStr(name) !in SerializerFields(s, m).value
  {
  }

  /** The evidently intended field set: "__all__" stands for every model field. */
  function SerializerFieldsCorrected(s: SerializerClass, m: ModelClass): (r: Result<set<Value>>)
    ensures s.metaFields != Some(VStr("__all__")) ==> r == SerializerFields(s, m)
  {
    if s.metaFields == Some(VStr("__all__"))
    then SerializerFields(s.(metaFields := None), m)
    else SerializerFields(s, m)
  }

  /** With the correction, "__all__" includes every model field not excluded. */
  lemma CorrectedAllIncludesEveryField(s: SerializerClass, m: ModelClass, name: string)
    requires s.metaFields == Some(VStr("__all__"))
    requires name in AllFieldNames(m.fields)
    ensures var r := SerializerFieldsCorrected(s, m);
            r.Ok? ==> (VStr(name) in r.value <==> s.metaExclude.None? || VStr(name) !in ToSet(s.metaExclude.value).value)
  {
  }

  /** `get_model_config(model, "_decorated", False)` with AttributeError read as
      False. */
  predicate ModelIsDecorated(m: ModelClass)
  {
    match Lookup(ModelDecoratorFunctions.ModelRules().validators, m.meta, "_decorated", VBool(false))
    case Err(_) => false
    case Ok(v) => Truthy(v)
  }

  /** `check_serializer_class(serializer_class, required_configs)`. The class test
      is made on the MODEL's `UTZMeta`, which the decorated test already requires
      to be a class; `required_configs=None` is a loop over None. */
  function CheckSerializerClass(s: SerializerClass, m: ModelClass, required: Option<seq<string>>): (r: Result<SerializerClass>)
    ensures r.Ok? ==> r.value == s
    ensures r.Ok? <==> s.isModelSerializer && MetaIsDecorated(m.meta) && !s.meta.NoMeta? && required.Some?
                       && forall k :: k in required.value ==> Truthy(MetaGet(s.meta, k, VNone))
    ensures !s.isModelSerializer ==> r == Err(TypeError)
    ensures s.isModelSerializer && !MetaIsDecorated(m.meta) ==> r == Err(ModelError)
    ensures s.isModelSerializer && MetaIsDecorated(m.meta) && s.meta.NoMeta? ==> r == Err(AttributeError)
    ensures s.isModelSerializer && MetaIsDecorated(m.meta) && !s.meta.NoMeta? && required.None? ==> r == Err(TypeError)
    ensures s.isModelSerializer && MetaIsDecorated(m.meta) && !s.meta.NoMeta? && required.Some? && r.Err? ==>
              r.error == ConfigurationError
  {
    if !s.isModelSerializer then Err(TypeError)
    else if !ModelIsDecorated(m) then Err(ModelError)
    else if s.meta.NoMeta? then Err(AttributeError)
    else if m.meta.NotAClass? then Err(ConfigurationError)
    else if required.None? then Err(TypeError)
    else if FirstUnset(s.meta, required.value).Some? then Err(ConfigurationError)
    else Ok(s)
  }

  /** `auto_add_fields` is required, and falsy counts as missing: a serializer
      that sets it to False is rejected. */
  lemma AutoAddFalseRejected(s: SerializerClass, m: ModelClass)
    requires s.isModelSerializer && MetaIsDecorated(m.meta) && !s.meta.NoMeta?
    requires MetaGet(s.meta, AUTO_ADD_FIELDS, VNone) == VBool(false)
    ensures CheckSerializerClass(s, m, Some(REQUIRED_SERIALIZER_CLASS_CONFIGS)) == Err(ConfigurationError)
  {
  }

  /** Because the class test looks at the model's `UTZMeta`, a serializer whose
      `UTZMeta` is not a class passes the check when nothing is required. */
  lemma NonClassSerializerMetaPasses(s: SerializerClass, m: ModelClass)
    requires s.isModelSerializer && MetaIsDecorated(m.meta) && s.meta.NotAClass?
    ensures CheckSerializerClass(s, m, Some([])) == Ok(s)
  {
  }

  /** The serializer getter's reading of a config. */
  function GetSerializerClassConfig(formats: set<string>, s: SerializerClass, config: string, default: Value): Result<Value>
  {
    Lookup(SerializerValidators(ConfigurationError, formats), s.meta, config, default)
  }

  /** `get_utzdatetime_field(serializer_class, extra_kwargs)`: a UTZDateTimeField
      whose kwargs are the given ones with the configured `datetime_format` as the
      default format. */
  function GetUtzDateTimeField(formats: set<string>, s: SerializerClass, kwargs: Kwargs): (r: Result<Value>)
    ensures r.Err? <==> GetSerializerClassConfig(formats, s, DATETIME_FORMAT, VNone).Err?
    ensures r.Ok? ==> r.value.VSerializerField? && r.value.cls == UTZDateTimeField
    ensures r.Ok? ==> forall k :: k in kwargs ==> k in r.value.kwargs && r.value.kwargs[k] == kwargs[k]
    ensures r.Ok? ==> var fmt := MetaGet(s.meta, DATETIME_FORMAT, VNone);
                      ("format" in r.value.kwargs <==> "format" in kwargs || Truthy(fmt))
                      && ("format" !in kwargs && Truthy(fmt) ==> r.value.kwargs["format"] == fmt)
  {
    match GetSerializerClassConfig(formats, s, DATETIME_FORMAT, VNone)
    case Err(e) => Err(e)
    case Ok(fmt) => Ok(VSerializerField(UTZDateTimeField, FieldKwargs(kwargs, fmt)))
  }

  /** The adding policy of `prepare_serializer_class`: a name is included when it
      is in the field set (an unhashable list raises TypeError), the format comes
      from the getter, and an empty kwargs entry is replaced by a fresh dict. */
  function FunctionAdding(formats: set<string>, s: SerializerClass, fields: set<Value>): Adding
  {
    Adding((f: Value) => if f.VList? then Err(TypeError) else Ok(f in fields),
           GetSerializerClassConfig(formats, s, DATETIME_FORMAT, VNone), false)
  }

  /** `prepare_serializer_class(serializer_class)`. */
  function PreparedSerializer(formats: set<string>, s: SerializerClass, m: ModelClass): SerializerOutcome
  {
    if !(m.meta.MetaClass? && DATETIME_FIELDS in m.meta.configs) then SerializerOutcome(s, Some(AttributeError))
    else
      match SerializerFields(s, m)
      case Err(e) => SerializerOutcome(s, Some(e))
      case Ok(fields) =>
        if fields == {} then SerializerOutcome(s, None)
        else
          match GetSerializerClassConfig(formats, s, AUTO_ADD_FIELDS, VBool(false))
          case Err(e) => SerializerOutcome(s, Some(e))
          case Ok(auto) =>
            if !Truthy(auto) then SerializerOutcome(s, None)
            else
              match Iterate(m.meta.configs[DATETIME_FIELDS])
              case Err(e) => SerializerOutcome(s, Some(e))
              case Ok(items) => AddFields(s, FunctionAdding(formats, s, fields), items)
  }

  method PrepareSerializerClass(formats: set<string>, s: SerializerClass, m: ModelClass) returns (o: SerializerOutcome)
    ensures o == PreparedSerializer(formats, s, m)
  {
    if !(m.meta.MetaClass? && DATETIME_FIELDS in m.meta.configs) {
      return SerializerOutcome(s, Some(AttributeError));
    }
    var datetimeFields := m.meta.configs[DATETIME_FIELDS];
    var fields := SerializerFields(s, m);
    if fields.Err? {
      return SerializerOutcome(s, Some(fields.error));
    }
    if fields.value == {} {
      return SerializerOutcome(s, None);
    }
    var auto := GetSerializerClassConfig(formats, s, AUTO_ADD_FIELDS, VBool(false));
    if auto.Err? {
      return SerializerOutcome(s, Some(auto.error));
    }
    if !Truthy(auto.value) {
      return SerializerOutcome(s, None);
    }
    var items := Iterate(datetimeFields);
    if items.Err? {
      return SerializerOutcome(s, Some(items.error));
    }
    o := AddFieldsLoop(s, FunctionAdding(formats, s, fields.value), items.value);
  }

  /** The class is returned as it is when it includes no field or when
      `auto_add_fields` is false or unset. */
  lemma UnchangedWithoutFieldsOrAutoAdd(formats: set<string>, s: SerializerClass, m: ModelClass)
    requires m.meta.MetaClass? && DATETIME_FIELDS in m.meta.configs
    requires SerializerFields(s, m).Ok?
    requires var auto := MetaGet(s.meta, AUTO_ADD_FIELDS, VBool(false));
             SerializerFields(s, m).value == {} || (!s.meta.NoMeta? && (auto == VNone || auto == VBool(false)))
    ensures PreparedSerializer(formats, s, m) == SerializerOutcome(s, None)
  {
  }

  /** With `auto_add_fields` true, each model datetime field that the serializer
      includes and does not already define gets a UTZDateTimeField built from its
      extra kwargs; every other attribute stays as it was. */
  lemma PreparedAddsIncludedDateTimeFields(formats: set<string>, s: SerializerClass, m: ModelClass, items: seq<Value>)
    requires m.meta.MetaClass? && DATETIME_FIELDS in m.meta.configs
    requires Iterate(m.meta.configs[DATETIME_FIELDS]) == Ok(items)
    requires forall i :: 0 <= i < |items| ==> items[i].VStr?
    requires SerializerFields(s, m).Ok? && SerializerFields(s, m).value != {}
    requires MetaGet(s.meta, AUTO_ADD_FIELDS, VBool(false)) == VBool(true)
    requires GetSerializerClassConfig(formats, s, DATETIME_FORMAT, VNone).Ok?
    ensures var o := PreparedSerializer(formats, s, m);
            var fields := SerializerFields(s, m).value;
            var fmt := GetSerializerClassConfig(formats, s, DATETIME_FORMAT, VNone).value;
            o.error.None?
            && (forall k :: k in s.attrs ==> k in o.cls.attrs && o.cls.attrs[k] == s.attrs[k])
            && (forall k :: k in o.cls.attrs <==> k in s.attrs || (VStr(k) in items && VStr(k) in fields))
            && (forall k :: k in o.cls.attrs && k !in s.attrs ==> o.cls.attrs[k] == NewField(s, k, fmt))
            && o.cls == s.(attrs := o.cls.attrs, extraKwargs := o.cls.extraKwargs)
  {
    var fields := SerializerFields(s, m).value;
    var a := FunctionAdding(formats, s, fields);
    assert PreparedSerializer(formats, s, m) == AddFields(s, a, items);
    AddedFields(s, a, items);
    AddFieldsKeepsClass(s, a, items);
    NoStepFails(s, a, items);
    forall k ensures Wanted(a, items, k) <==> VStr(k) in items && VStr(k) in fields
    {
      if VStr(k) in items {
        var i :| 0 <= i < |items| && items[i] == VStr(k);
      }
    }
  }

  /** The class with `UTZMeta._decorated = True`. */
  function MarkSerializerDecorated(s: SerializerClass): (r: SerializerClass)
    ensures MetaIsDecorated(r.meta) && r == s.(meta := r.meta)
  {
    s.(meta := MetaClass((if s.meta.MetaClass? then s.meta.configs else map[])["_decorated" := VBool(true)]))
  }

  /** `modelserializer(serializer_class)`: check, prepare, then mark. */
  function ModelSerializerDecorated(formats: set<string>, s: SerializerClass, m: ModelClass): SerializerOutcome
  {
    match CheckSerializerClass(s, m, Some(REQUIRED_SERIALIZER_CLASS_CONFIGS))
    case Err(e) => SerializerOutcome(s, Some(e))
    case Ok(_) =>
      var o := PreparedSerializer(formats, s, m);
      if o.error.None? then SerializerOutcome(MarkSerializerDecorated(o.cls), None) else o
  }

  method ModelSerializer(formats: set<string>, s: SerializerClass, m: ModelClass) returns (o: SerializerOutcome)
    ensures o == ModelSerializerDecorated(formats, s, m)
  {
    var checked := CheckSerializerClass(s, m, Some(REQUIRED_SERIALIZER_CLASS_CONFIGS));
    if checked.Err? {
      return SerializerOutcome(s, Some(checked.error));
    }
    o := PrepareSerializerClass(formats, s, m);
    if o.error.None? {
      o := SerializerOutcome(MarkSerializerDecorated(o.cls), None);
    }
  }

  /** `modelserializer` marks the class exactly when check and preparation
      succeed; on failure `UTZMeta` is left as it was. */
  lemma MarkedOnlyOnSuccess(formats: set<string>, s: SerializerClass, m: ModelClass)
    ensures var o := ModelSerializerDecorated(formats, s, m);
            (o.error.None? ==> MetaIsDecorated(o.cls.meta))
            && (o.error.Some? ==> o.cls.meta == s.meta)
    ensures var o := ModelSerializerDecorated(formats, s, m);
            o.error.None? <==> CheckSerializerClass(s, m, Some(REQUIRED_SERIALIZER_CLASS_CONFIGS)).Ok?
                               && PreparedSerializer(formats, s, m).error.None?
  {
    var o := PreparedSerializer(formats, s, m);
    if CheckSerializerClass(s, m, Some(REQUIRED_SERIALIZER_CLASS_CONFIGS)).Ok? && m.meta.MetaClass?
       && DATETIME_FIELDS in m.meta.configs && SerializerFields(s, m).Ok? && SerializerFields(s, m).value != {}
       && GetSerializerClassConfig(formats, s, AUTO_ADD_FIELDS, VBool(false)).Ok?
       && Iterate(m.meta.configs[DATETIME_FIELDS]).Ok? {
      AddFieldsKeepsClass(s, FunctionAdding(formats, s, SerializerFields(s, m).value), Iterate(m.meta.configs[DATETIME_FIELDS]).value);
    }
  }
}
