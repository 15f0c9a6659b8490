/** The serializer mixin UTZModelSerializerMixin (django_utz/serializers/mixins.py):
    when its `get_fields` runs and `add_utz_fields` is true, every model datetime
    field that `Meta.fields` lists, or that `Meta.exclude` does not, is (re)placed
    in the serializer's field dict by a UTZDateTimeField built from the field's
    `Meta.extra_kwargs` entry, which gets the representation format as its default
    `format` in place. */
module SerializerMixins {
  import opened Common
  import opened Schema
  import opened FieldAdding

  const DEFAULT_REPR_FORMAT := "%Y-%m-%d %H:%M:%S %Z (%z)"
  const DATETIME_FIELDS_ATTR := "datetime_fields"

  /** `_model_serializer_pre_check`: `utz_model_mixin` must subclass UTZModelMixin,
      be one of the model's DIRECT bases, and the model must have `datetime_fields`. */
  function PreCheck(mixin: string, mixinIsUTZModelMixin: bool, m: ModelClass): (r: Option<Error>)
    ensures r.None? <==> mixinIsUTZModelMixin && mixin in m.bases && DATETIME_FIELDS_ATTR in m.attrs
    ensures !mixinIsUTZModelMixin ==> r == Some(AssertionError)
    ensures mixinIsUTZModelMixin && mixin !in m.bases ==> r == Some(ImproperlyConfigured)
    ensures mixinIsUTZModelMixin && mixin in m.bases && r.Some? ==> r == Some(AttributeError)
  {
    if !mixinIsUTZModelMixin then Some(AssertionError)
    else if mixin !in m.bases then Some(ImproperlyConfigured)
    else if DATETIME_FIELDS_ATTR !in m.attrs then Some(AttributeError)
    else None
  }

  /** `f in Meta.fields or f not in Meta.exclude`; reading an attribute `Meta` does
      not have raises AttributeError, and only when it is reached. */
  function Processed(fields: Option<Value>, exclude: Option<Value>, f: Value): (r: Result<bool>)
    ensures r == Ok(true) <==> fields.Some? && (Contains(fields.value, f) == Ok(true)
                                 || (Contains(fields.value, f) == Ok(false) && exclude.Some? && Contains(exclude.value, f) == Ok(false)))
    ensures fields.None? ==> r == Err(AttributeError)
    ensures fields.Some? && Contains(fields.value, f) == Ok(false) && exclude.None? ==> r == Err(AttributeError)
  {
    match fields
    case None => Err(AttributeError)
    case Some(fs) =>
      match Contains(fs, f)
      case Err(e) => Err(e)
      case Ok(isIn) =>
        if isIn then Ok(true)
        else
          match exclude
          case None => Err(AttributeError)
          case Some(ex) =>
            match Contains(ex, f)
            case Err(e) => Err(e)
            case Ok(isOut) => Ok(!isOut)
  }

  /** What a serializer includes: every field when `Meta.fields` is unset or
      "__all__", else the listed ones; minus `Meta.exclude` when it is set. */
  function Included(fields: Option<Value>, exclude: Option<Value>, f: Value): (r: Result<bool>)
    ensures (fields.None? || fields.value == VStr("__all__")) && exclude.None? ==> r == Ok(true)
    ensures r == Ok(true) ==>
              (fields.None? || fields.value == VStr("__all__") || Contains(fields.value, f) == Ok(true))
              && (exclude.None? || Contains(exclude.value, f) == Ok(false))
  {
    var inc := if fields.None? || fields.value == VStr("__all__") then Ok(true) else Contains(fields.value, f);
    match inc
    case Err(e) => Err(e)
    case Ok(isIn) =>
      if !isIn then Ok(false)
      else
        match exclude
        case None => Ok(true)
        case Some(ex) =>
          match Contains(ex, f)
          case Err(e) => Err(e)
          case Ok(isOut) => Ok(!isOut)
  }

  /** The loop's selection: as written, or as evidently intended. */
  function Selected(corrected: bool, fields: Option<Value>, exclude: Option<Value>, f: Value): Result<bool>
  {
    if corrected then Included(fields, exclude, f) else Processed(fields, exclude, f)
  }

  /** `Meta.extra_kwargs.get(name, {})`, the dict itself when the entry exists. */
  function DeclaredFor(ek: Option<map<string, Kwargs>>, name: string): Kwargs
  {
    if ek.Some? && name in ek.value then ek.value[name] else map[]
  }

  /** The field built for datetime field `name`, None for a field that is not a
      DateTimeField. */
  function FieldValue(m: ModelClass, reprFormat: Value, ek: Option<map<string, Kwargs>>, name: string): Value
  {
    if IsDateTimeField(m, name) == Ok(true)
    then VSerializerField(UTZDateTimeField, WithDefaultFormat(DeclaredFor(ek, name), reprFormat))
    else VNone
  }

  /** The field returned, and `Meta.extra_kwargs` as the call leaves it. */
  datatype FieldFor = FieldFor(field: Result<Value>, extraKwargs: Option<map<string, Kwargs>>)

  /** `get_utz_field_for_datetime_field(f)`. A list is unhashable as a dict key;
      any other non-str name is no field of the model. */
  function UtzFieldFor(m: ModelClass, reprFormat: Value, ek: Option<map<string, Kwargs>>, f: Value): (r: FieldFor)
    ensures r.field.Ok? ==> f.VStr? && ek.Some? && r.field.value == FieldValue(m, reprFormat, ek, f.s)
    ensures r.field.Ok? ==> r.extraKwargs.Some?
                            && r.extraKwargs.value.Keys == ek.value.Keys
                            && (forall k :: k in ek.value && k != f.s ==> r.extraKwargs.value[k] == ek.value[k])
                            && (f.s in ek.value && IsDateTimeField(m, f.s) == Ok(true) ==>
                                  r.extraKwargs.value[f.s] == WithDefaultFormat(ek.value[f.s], reprFormat))
                            && (IsDateTimeField(m, f.s) != Ok(true) ==> r.extraKwargs == ek)
    ensures r.field.Err? ==> r.extraKwargs == ek
    ensures r.field.Ok? ==> DATETIME_FIELDS_ATTR in m.attrs && Contains(m.attrs[DATETIME_FIELDS_ATTR], f) == Ok(true)
    ensures DATETIME_FIELDS_ATTR in m.attrs && Contains(m.attrs[DATETIME_FIELDS_ATTR], f) == Ok(false) ==>
              r.field == Err(ValueError)
  {
    if DATETIME_FIELDS_ATTR !in m.attrs then FieldFor(Err(AttributeError), ek)
    else
      match Contains(m.attrs[DATETIME_FIELDS_ATTR], f)
      case Err(e) => FieldFor(Err(e), ek)
      case Ok(listed) =>
        if !listed then FieldFor(Err(ValueError), ek)
        else if ek.None? then FieldFor(Err(AttributeError), ek)
        else if f.VList? then FieldFor(Err(TypeError), ek)
        else if !f.VStr? then FieldFor(Err(FieldDoesNotExist), ek)
        else
          match IsDateTimeField(m, f.s)
          case Err(e) => FieldFor(Err(e), ek)
          case Ok(isDateTime) =>
            if !isDateTime then FieldFor(Ok(VNone), ek)
            else
              var kw := WithDefaultFormat(DeclaredFor(ek, f.s), reprFormat);
              FieldFor(Ok(VSerializerField(UTZDateTimeField, kw)),
                       if f.s in ek.value then Some(ek.value[f.s := kw]) else ek)
  }

  /** Building a field again gives the same field: the format written into the
      kwargs entry is the default it would get anyway. */
  lemma FieldValueStable(m: ModelClass, reprFormat: Value, ek: Option<map<string, Kwargs>>, f: Value, k: string)
    requires UtzFieldFor(m, reprFormat, ek, f).field.Ok?
    ensures FieldValue(m, reprFormat, UtzFieldFor(m, reprFormat, ek, f).extraKwargs, k) == FieldValue(m, reprFormat, ek, k)
  {
    var ek2 := UtzFieldFor(m, reprFormat, ek, f).extraKwargs;
    if k == f.s && k in ek.value && IsDateTimeField(m, k) == Ok(true) {
      WithDefaultFormatIdempotent(ek.value[k], reprFormat, reprFormat);
      assert DeclaredFor(ek2, k) == WithDefaultFormat(ek.value[k], reprFormat);
    } else if k != f.s {
      assert DeclaredFor(ek2, k) == DeclaredFor(ek, k);
    }
  }

  /** The field dict and `Meta.extra_kwargs` as the loop leaves them. */
  datatype Added = Added(fields: Result<map<string, Value>>, extraKwargs: Option<map<string, Kwargs>>)

  /** The loop of `get_and_add_utz_fields` over the datetime fields `items`. */
  function AddUtzFields(m: ModelClass, corrected: bool, fields: Option<Value>, exclude: Option<Value>, reprFormat: Value,
                        ek: Option<map<string, Kwargs>>, acc: map<string, Value>, items: seq<Value>): (r: Added)
    decreases |items|
  {
    if items == [] then Added(Ok(acc), ek)
    else
      match Selected(corrected, fields, exclude, items[0])
      case Err(e) => Added(Err(e), ek)
      case Ok(selected) =>
        if !selected then AddUtzFields(m, corrected, fields, exclude, reprFormat, ek, acc, items[1..])
        else
          var r := UtzFieldFor(m, reprFormat, ek, items[0]);
          match r.field
          case Err(e) => Added(Err(e), r.extraKwargs)
          case Ok(v) => AddUtzFields(m, corrected, fields, exclude, reprFormat, r.extraKwargs, acc[items[0].s := v], items[1..])
  }

  /** `get_and_add_utz_fields(serializer_fields)`: `datetime_fields` must be exactly
      a list. */
  function GetAndAddUtzFields(m: ModelClass, corrected: bool, fields: Option<Value>, exclude: Option<Value>, reprFormat: Value,
                              ek: Option<map<string, Kwargs>>, serializerFields: map<string, Value>): Added
  {
    if DATETIME_FIELDS_ATTR !in m.attrs then Added(Err(AttributeError), ek)
    else if !m.attrs[DATETIME_FIELDS_ATTR].VList? then Added(Err(AssertionError), ek)
    else AddUtzFields(m, corrected, fields, exclude, reprFormat, ek, serializerFields, m.attrs[DATETIME_FIELDS_ATTR].items)
  }

  /** `k` is a datetime field name the loop selects. */
  predicate Chosen(corrected: bool, fields: Option<Value>, exclude: Option<Value>, items: seq<Value>, k: string)
  {
    VStr(k) in items && Selected(corrected, fields, exclude, VStr(k)) == Ok(true)
  }

  /** On success the field dict holds every entry it had, and each selected
      datetime field name maps to the field built for it, overriding any entry of
      that name; nothing else is added. */
  lemma {:induction false} AddedFieldsOverride(m: ModelClass, corrected: bool, fields: Option<Value>, exclude: Option<Value>,
                                               reprFormat: Value, ek: Option<map<string, Kwargs>>,
                                               acc: map<string, Value>, items: seq<Value>)
    ensures var r := AddUtzFields(m, corrected, fields, exclude, reprFormat, ek, acc, items);
            r.fields.Ok? ==>
              (forall k :: k in r.fields.value <==> k in acc || Chosen(corrected, fields, exclude, items, k))
              && (forall k :: Chosen(corrected, fields, exclude, items, k) ==> r.fields.value[k] == FieldValue(m, reprFormat, ek, k))
              && (forall k :: k in acc && !Chosen(corrected, fields, exclude, items, k) ==> r.fields.value[k] == acc[k])
    decreases |items|
  {
    if items != [] {
      var f := items[0];
      var rest := items[1..];
      var sel := Selected(corrected, fields, exclude, f);
      if sel == Ok(false) {
        AddedFieldsOverride(m, corrected, fields, exclude, reprFormat, ek, acc, rest);
        ChosenSkips(corrected, fields, exclude, items);
      } else if sel == Ok(true) {
        var r1 := UtzFieldFor(m, reprFormat, ek, f);
        if r1.field.Ok? {
          var acc1 := acc[f.s := r1.field.value];
          AddedFieldsOverride(m, corrected, fields, exclude, reprFormat, r1.extraKwargs, acc1, rest);
          ChosenTakes(corrected, fields, exclude, items);
          forall k ensures FieldValue(m, reprFormat, r1.extraKwargs, k) == FieldValue(m, reprFormat, ek, k) {
            FieldValueStable(m, reprFormat, ek, f, k);
          }
        }
      }
    }
  }

  lemma ChosenSkips(corrected: bool, fields: Option<Value>, exclude: Option<Value>, items: seq<Value>)
    requires items != [] && Selected(corrected, fields, exclude, items[0]) == Ok(false)
    ensures forall k :: Chosen(corrected, fields, exclude, items, k) <==> Chosen(corrected, fields, exclude, items[1..], k)
  {
    assert forall x :: x in items <==> x == items[0] || x in items[1..];
  }

  lemma ChosenTakes(corrected: bool, fields: Option<Value>, exclude: Option<Value>, items: seq<Value>)
    requires items != [] && Selected(corrected, fields, exclude, items[0]) == Ok(true) && items[0].VStr?
    ensures forall k :: Chosen(corrected, fields, exclude, items, k) <==> k == items[0].s || Chosen(corrected, fields, exclude, items[1..], k)
  {
    assert forall x :: x in items <==> x == items[0] || x in items[1..];
  }

  /** As written, with `Meta.fields = "__all__"` and no `Meta.exclude`, `in` is a
      substring test on "__all__" and the fallback reads the missing `exclude`: the
      loop succeeds only if every datetime field name is a piece of "__all__". */
  lemma {:induction false} AllFieldsWithoutExcludeFails(m: ModelClass, reprFormat: Value, ek: Option<map<string, Kwargs>>,
                                                        acc: map<string, Value>, items: seq<Value>)
    ensures AddUtzFields(m, false, Some(VStr("__all__")), None, reprFormat, ek, acc, items).fields.Ok? ==>
              forall i :: 0 <= i < |items| ==> items[i].VStr? && IsSubstring(items[i].s, "__all__")
    decreases |items|
  {
    if items != [] {
      var r1 := UtzFieldFor(m, reprFormat, ek, items[0]);
      var acc1 := if r1.field.Ok? then acc[items[0].s := r1.field.value] else acc;
      AllFieldsWithoutExcludeFails(m, reprFormat, r1.extraKwargs, acc1, items[1..]);
      assert forall i :: 1 <= i < |items| ==> items[i] == items[1..][i - 1];
    }
  }

  /** A name longer than "__all__" is no piece of it. */
  lemma {:induction false} LongerIsNoSubstring(a: string, b: string)
    requires |a| > |b|
    ensures !IsSubstring(a, b)
    decreases |b|
  {
    if |b| > 0 {
      LongerIsNoSubstring(a, b[1..]);
    }
  }

  /** Example: a model with `datetime_fields = ["created_at"]`, behind a serializer
      whose `Meta` is the documented `fields = "__all__"` with no `exclude`. */
  lemma DocumentedSerializerFails(m: ModelClass, reprFormat: Value, ek: Option<map<string, Kwargs>>, base: map<string, Value>)
    requires m.attrs == map[DATETIME_FIELDS_ATTR := VList([VStr("created_at")])]
    ensures GetAndAddUtzFields(m, false, Some(VStr("__all__")), None, reprFormat, ek, base).fields == Err(AttributeError)
  {
    LongerIsNoSubstring("created_at", "__all__");
  }

  /** Corrected, "__all__" without `exclude` selects every datetime field of the
      model, and the loop then fails only where a listed name is not a model field
      or `extra_kwargs` is missing. */
  lemma {:induction false} CorrectedAllFieldsSelectsEvery(m: ModelClass, reprFormat: Value, ek: Option<map<string, Kwargs>>,
                                                          acc: map<string, Value>, items: seq<Value>)
    requires DATETIME_FIELDS_ATTR in m.attrs && m.attrs[DATETIME_FIELDS_ATTR].VList?
    requires forall i :: 0 <= i < |items| ==> items[i] in m.attrs[DATETIME_FIELDS_ATTR].items
    requires ek.Some?
    requires forall i :: 0 <= i < |items| ==> items[i].VStr? && IsDateTimeField(m, items[i].s).Ok?
    ensures var r := AddUtzFields(m, true, Some(VStr("__all__")), None, reprFormat, ek, acc, items);
            r.fields.Ok? && forall i :: 0 <= i < |items| ==> items[i].s in r.fields.value
    decreases |items|
  {
    if items != [] {
      var r1 := UtzFieldFor(m, reprFormat, ek, items[0]);
      assert r1.field.Ok?;
      var acc1 := acc[items[0].s := r1.field.value];
      CorrectedAllFieldsSelectsEvery(m, reprFormat, r1.extraKwargs, acc1, items[1..]);
      assert forall i :: 1 <= i < |items| ==> items[i] == items[1..][i - 1];
      AddedFieldsOverride(m, true, Some(VStr("__all__")), None, reprFormat, r1.extraKwargs, acc1, items[1..]);
    }
  }

  /** A ModelSerializer using the mixin: its `Meta` and the class attributes the
      mixin reads; `Meta.extra_kwargs` is shared by every instance and updated in
      place. */
  class UTZModelSerializer {
    const model: ModelClass
    const metaFields: Option<Value>
    const metaExclude: Option<Value>
    const addUtzFields: bool
    const reprFormat: Value
    var extraKwargs: Option<map<string, Kwargs>>

    constructor (model: ModelClass, metaFields: Option<Value>, metaExclude: Option<Value>, addUtzFields: bool,
                 reprFormat: Value, extraKwargs: Option<map<string, Kwargs>>)
      ensures this.model == model && this.metaFields == metaFields && this.metaExclude == metaExclude
      ensures this.addUtzFields == addUtzFields && this.reprFormat == reprFormat && this.extraKwargs == extraKwargs
    {
      this.model := model;
      this.metaFields := metaFields;
      this.metaExclude := metaExclude;
      this.addUtzFields := addUtzFields;
      this.reprFormat := reprFormat;
      this.extraKwargs := extraKwargs;
    }

    /** `get_utz_field_for_datetime_field(f)` */
    method GetUtzFieldForDateTimeField(f: Value) returns (r: Result<Value>)
      modifies this
      ensures FieldFor(r, extraKwargs) == UtzFieldFor(model, reprFormat, old(extraKwargs), f)
    {
      if DATETIME_FIELDS_ATTR !in model.attrs {
        return Err(AttributeError);
      }
      var listed := Contains(model.attrs[DATETIME_FIELDS_ATTR], f);
      if listed.Err? {
        return Err(listed.error);
      }
      if !listed.value {
        return Err(ValueError);
      }
      if extraKwargs.None? {
        return Err(AttributeError);
      }
      if f.VList? {
        return Err(TypeError);
      }
      if !f.VStr? {
        return Err(FieldDoesNotExist);
      }
      var isDateTime := IsDateTimeField(model, f.s);
      if isDateTime.Err? {
        return Err(isDateTime.error);
      }
      if !isDateTime.value {
        return Ok(VNone);
      }
      var kw := DeclaredFor(extraKwargs, f.s);
      if "format" !in kw {
        kw := kw["format" := reprFormat];
      }
      if f.s in extraKwargs.value {
        extraKwargs := Some(extraKwargs.value[f.s := kw]);
      }
      return Ok(VSerializerField(UTZDateTimeField, kw));
    }

    /** `get_and_add_utz_fields(serializer_fields)` */
    method GetAndAddUtzFieldsLoop(serializerFields: map<string, Value>) returns (r: Result<map<string, Value>>)
      modifies this
      ensures Added(r, extraKwargs)
              == GetAndAddUtzFields(model, false, metaFields, metaExclude, reprFormat, old(extraKwargs), serializerFields)
    {
      if DATETIME_FIELDS_ATTR !in model.attrs {
        return Err(AttributeError);
      }
      if !model.attrs[DATETIME_FIELDS_ATTR].VList? {
        return Err(AssertionError);
      }
      var items := model.attrs[DATETIME_FIELDS_ATTR].items;
      var acc := serializerFields;
      var i := 0;
      while i < |items|
        invariant 0 <= i <= |items|
        invariant AddUtzFields(model, false, metaFields, metaExclude, reprFormat, old(extraKwargs), serializerFields, items)
                  == AddUtzFields(model, false, metaFields, metaExclude, reprFormat, extraKwargs, acc, items[i..])
      {
        assert items[i..][1..] == items[i + 1..];
        var f := items[i];
        var selected := Processed(metaFields, metaExclude, f);
        if selected.Err? {
          return Err(selected.error);
        }
        if selected.value {
          var field := GetUtzFieldForDateTimeField(f);
          if field.Err? {
            return Err(field.error);
          }
          acc := acc[f.s := field.value];
        }
        i := i + 1;
      }
      assert items[i..] == [];
      return Ok(acc);
    }

    /** `get_fields()` over the fields `ModelSerializer.get_fields` returned. */
    method GetFields(base: map<string, Value>) returns (r: Result<map<string, Value>>)
      modifies this
      ensures addUtzFields ==>
                Added(r, extraKwargs) == GetAndAddUtzFields(model, false, metaFields, metaExclude, reprFormat, old(extraKwargs), base)
      ensures !addUtzFields ==> r == Ok(base) && extraKwargs == old(extraKwargs)
    {
      if addUtzFields {
        r := GetAndAddUtzFieldsLoop(base);
      } else {
        r := Ok(base);
      }
    }
  }

  /** Construction: `ModelSerializer.__init__`, then `_model_serializer_pre_check`;
      the serializer exists only when the pre-check passes. */
  method Create(mixin: string, mixinIsUTZModelMixin: bool, model: ModelClass, metaFields: Option<Value>,
                metaExclude: Option<Value>, addUtzFields: bool, reprFormat: Value,
                extraKwargs: Option<map<string, Kwargs>>)
    returns (r: Result<UTZModelSerializer>)
    ensures r.Err? <==> PreCheck(mixin, mixinIsUTZModelMixin, model).Some?
    ensures r.Err? ==> r.error == PreCheck(mixin, mixinIsUTZModelMixin, model).value
    ensures r.Ok? ==> fresh(r.value) && r.value.model == model && r.value.metaFields == metaFields
                      && r.value.metaExclude == metaExclude && r.value.addUtzFields == addUtzFields
                      && r.value.reprFormat == reprFormat && r.value.extraKwargs == extraKwargs
  {
    var s := new UTZModelSerializer(model, metaFields, metaExclude, addUtzFields, reprFormat, extraKwargs);
    var pre := PreCheck(mixin, mixinIsUTZModelMixin, model);
    if pre.Some? {
      return Err(pre.value);
    }
    return Ok(s);
  }
}
