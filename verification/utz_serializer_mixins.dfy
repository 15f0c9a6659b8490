/** The first-generation serializer mixin UTZModelSerializerMixin
    (django_utz_mixins/serializers.py): on construction it checks the model and
    then, for every entry of the model's `time_related_fields` that `Meta.fields`
    lists or `Meta.exclude` does not, puts a UTZDateTimeField or UTZTimeField with
    the representation format into the serializer's `fields`. As written, the type
    test calls the instance method `is_datetime_field` on the mixin class, one
    argument short, so every selected entry raises TypeError. */
module UtzSerializerMixins {
  import opened Common
  import opened Schema
  import SerializerMixins

  const TIME_RELATED_FIELDS := "time_related_fields"

  /** `_model_serializer_pre_check`: `utz_props_mixin` must subclass UTZModelMixin,
      be one of the model's DIRECT bases (else NotImplementedError), and the model
      must have `time_related_fields`. */
  function PreCheck(mixin: string, mixinIsUTZModelMixin: bool, m: ModelClass): (r: Option<Error>)
    ensures r.None? <==> mixinIsUTZModelMixin && mixin in m.bases && TIME_RELATED_FIELDS in m.attrs
    ensures !mixinIsUTZModelMixin ==> r == Some(AssertionError)
    ensures mixinIsUTZModelMixin && mixin !in m.bases ==> r == Some(NotImplementedError)
    ensures mixinIsUTZModelMixin && mixin in m.bases && r.Some? ==> r == Some(AttributeError)
  {
    if !mixinIsUTZModelMixin then Some(AssertionError)
    else if mixin !in m.bases then Some(NotImplementedError)
    else if TIME_RELATED_FIELDS !in m.attrs then Some(AttributeError)
    else None
  }

  /** The serializer field for a time-related model field as evidently intended:
      a UTZDateTimeField for a DateTimeField, a UTZTimeField for a TimeField, none
      for any other field; a name that is no model field raises. */
  function FieldForKind(m: ModelClass, reprFormat: Value, f: Value): (r: Result<Option<Value>>)
    ensures r.Ok? <==> f.VStr? && exists fld :: fld in m.fields && fld.name == f.s
    ensures r.Ok? ==> var kind := GetField(m.fields, f.s).value.kind;
                      r.value == (if kind.DateTimeKind? then Some(VSerializerField(UTZDateTimeField, map["format" := reprFormat]))
                                  else if kind.TimeKind? then Some(VSerializerField(UTZTimeField, map["format" := reprFormat]))
                                  else None)
  {
    if !f.VStr? then Err(FieldDoesNotExist)
    else
      match IsDateTimeField(m, f.s)
      case Err(e) => Err(e)
      case Ok(isDateTime) =>
        if isDateTime then Ok(Some(VSerializerField(UTZDateTimeField, map["format" := reprFormat])))
        else if IsTimeField(m, f.s) == Ok(true) then Ok(Some(VSerializerField(UTZTimeField, map["format" := reprFormat])))
        else Ok(None)
  }

  /** `_add_utz_field_for(f)`: the entry it puts into `fields`, if any. An unlisted
      name raises ValueError; as written the type test then raises TypeError. */
  function AddUtzFieldFor(m: ModelClass, corrected: bool, reprFormat: Value, f: Value): (r: Result<Option<Value>>)
    ensures TIME_RELATED_FIELDS in m.attrs && Contains(m.attrs[TIME_RELATED_FIELDS], f) == Ok(false) ==> r == Err(ValueError)
    ensures r.Ok? ==> TIME_RELATED_FIELDS in m.attrs && Contains(m.attrs[TIME_RELATED_FIELDS], f) == Ok(true)
    ensures !corrected ==> r.Err?
    ensures corrected && r.Ok? ==> r == FieldForKind(m, reprFormat, f) && f.VStr?
  {
    if TIME_RELATED_FIELDS !in m.attrs then Err(AttributeError)
    else
      match Contains(m.attrs[TIME_RELATED_FIELDS], f)
      case Err(e) => Err(e)
      case Ok(listed) =>
        if !listed then Err(ValueError)
        else if !corrected then Err(TypeError)
        else FieldForKind(m, reprFormat, f)
  }

  /** The loop of `_add_utz_fields` over `items`: the serializer's `fields` as it
      goes, and the exception that stops it, if any. */
  datatype Outcome = Outcome(fields: map<string, Value>, error: Option<Error>)

  function AddUtzFields(m: ModelClass, corrected: bool, metaFields: Option<Value>, metaExclude: Option<Value>,
                        reprFormat: Value, fields: map<string, Value>, items: seq<Value>): (r: Outcome)
    decreases |items|
  {
    if items == [] then Outcome(fields, None)
    else
      match SerializerMixins.Processed(metaFields, metaExclude, items[0])
      case Err(e) => Outcome(fields, Some(e))
      case Ok(selected) =>
        if !selected then AddUtzFields(m, corrected, metaFields, metaExclude, reprFormat, fields, items[1..])
        else
          match AddUtzFieldFor(m, corrected, reprFormat, items[0])
          case Err(e) => Outcome(fields, Some(e))
          case Ok(None) => AddUtzFields(m, corrected, metaFields, metaExclude, reprFormat, fields, items[1..])
          case Ok(Some(v)) => AddUtzFields(m, corrected, metaFields, metaExclude, reprFormat, fields[items[0].s := v], items[1..])
  }

  /** `_add_utz_fields()`: `time_related_fields` must be exactly a list. */
  function AddAll(m: ModelClass, corrected: bool, metaFields: Option<Value>, metaExclude: Option<Value>,
                  reprFormat: Value, fields: map<string, Value>): Outcome
  {
    if TIME_RELATED_FIELDS !in m.attrs then Outcome(fields, Some(AttributeError))
    else if !m.attrs[TIME_RELATED_FIELDS].VList? then Outcome(fields, Some(AssertionError))
    else AddUtzFields(m, corrected, metaFields, metaExclude, reprFormat, fields, m.attrs[TIME_RELATED_FIELDS].items)
  }

  /** As written, the loop never changes `fields`, and it raises TypeError at the
      first selected entry of `time_related_fields`. */
  lemma {:induction false} AsWrittenNeverAdds(m: ModelClass, metaFields: Option<Value>, metaExclude: Option<Value>,
                                              reprFormat: Value, fields: map<string, Value>, items: seq<Value>)
    requires TIME_RELATED_FIELDS in m.attrs && m.attrs[TIME_RELATED_FIELDS] == VList(items)
    ensures var r := AddUtzFields(m, false, metaFields, metaExclude, reprFormat, fields, items);
            r.fields == fields
            && (r.error.None? <==> forall i :: 0 <= i < |items| ==> SerializerMixins.Processed(metaFields, metaExclude, items[i]) == Ok(false))
    decreases |items|
  {
    AsWrittenNeverAddsSuffix(m, metaFields, metaExclude, reprFormat, fields, items, 0);
    assert items[0..] == items;
  }

  /** The same over a suffix of the listed entries. */
  lemma {:induction false} AsWrittenNeverAddsSuffix(m: ModelClass, metaFields: Option<Value>, metaExclude: Option<Value>,
                                                    reprFormat: Value, fields: map<string, Value>, items: seq<Value>, j: nat)
    requires TIME_RELATED_FIELDS in m.attrs && m.attrs[TIME_RELATED_FIELDS] == VList(items) && j <= |items|
    ensures var r := AddUtzFields(m, false, metaFields, metaExclude, reprFormat, fields, items[j..]);
            r.fields == fields
            && (r.error.None? <==> forall i :: j <= i < |items| ==> SerializerMixins.Processed(metaFields, metaExclude, items[i]) == Ok(false))
    decreases |items| - j
  {
    if j < |items| {
      assert items[j..][1..] == items[j + 1..];
      assert items[j..][0] == items[j];
      if SerializerMixins.Processed(metaFields, metaExclude, items[j]) == Ok(false) {
        AsWrittenNeverAddsSuffix(m, metaFields, metaExclude, reprFormat, fields, items, j + 1);
      } else if SerializerMixins.Processed(metaFields, metaExclude, items[j]) == Ok(true) {
        assert Contains(m.attrs[TIME_RELATED_FIELDS], items[j]) == Ok(true);
      }
    }
  }

  /** `k` is a time-related field name the loop selects. */
  predicate Chosen(metaFields: Option<Value>, metaExclude: Option<Value>, items: seq<Value>, k: string)
  {
    VStr(k) in items && SerializerMixins.Processed(metaFields, metaExclude, VStr(k)) == Ok(true)
  }

  /** Model field `k` has a UTZ serializer field. */
  predicate Yields(m: ModelClass, reprFormat: Value, k: string)
  {
    FieldForKind(m, reprFormat, VStr(k)).Ok? && FieldForKind(m, reprFormat, VStr(k)).value.Some?
  }

  /** Corrected, on success: each selected DateTimeField or TimeField name gets
      its UTZ field with the representation format, any other selected field
      leaves `fields` as it was, and entries not selected are untouched. */
  lemma {:induction false} CorrectedAddsByKind(m: ModelClass, metaFields: Option<Value>, metaExclude: Option<Value>,
                                               reprFormat: Value, fields: map<string, Value>, items: seq<Value>)
    ensures var r := AddUtzFields(m, true, metaFields, metaExclude, reprFormat, fields, items);
            r.error.None? ==>
              (forall k :: Chosen(metaFields, metaExclude, items, k) && Yields(m, reprFormat, k) ==>
                 k in r.fields && r.fields[k] == FieldForKind(m, reprFormat, VStr(k)).value.value)
              && (forall k :: k in r.fields <==>
                    k in fields || (Chosen(metaFields, metaExclude, items, k) && Yields(m, reprFormat, k)))
              && (forall k :: k in fields && !Chosen(metaFields, metaExclude, items, k) ==> r.fields[k] == fields[k])
    decreases |items|
  {
    if items != [] {
      var f := items[0];
      var rest := items[1..];
      var sel := SerializerMixins.Processed(metaFields, metaExclude, f);
      if sel == Ok(false) {
        CorrectedAddsByKind(m, metaFields, metaExclude, reprFormat, fields, rest);
        ChosenSplit(metaFields, metaExclude, items);
      } else if sel == Ok(true) {
        var a := AddUtzFieldFor(m, true, reprFormat, f);
        if a.Ok? {
          var fields1 := if a.value.Some? then fields[f.s := a.value.value] else fields;
          CorrectedAddsByKind(m, metaFields, metaExclude, reprFormat, fields1, rest);
          ChosenSplit(metaFields, metaExclude, items);
        }
      }
    }
  }

  /** Which names the loop selects, split at its first entry. */
  lemma ChosenSplit(metaFields: Option<Value>, metaExclude: Option<Value>, items: seq<Value>)
    requires items != []
    ensures SerializerMixins.Processed(metaFields, metaExclude, items[0]) == Ok(false) ==>
              forall k :: Chosen(metaFields, metaExclude, items, k) <==> Chosen(metaFields, metaExclude, items[1..], k)
    ensures SerializerMixins.Processed(metaFields, metaExclude, items[0]) == Ok(true) && items[0].VStr? ==>
              forall k :: Chosen(metaFields, metaExclude, items, k) <==> k == items[0].s || Chosen(metaFields, metaExclude, items[1..], k)
  {
    assert forall x :: x in items <==> x == items[0] || x in items[1..];
  }

  /** A ModelSerializer using the mixin: its `Meta` and the class attributes the
      mixin reads, and its `fields`, which `_add_utz_fields` writes into. */
  class UTZModelSerializer {
    const model: ModelClass
    const metaFields: Option<Value>
    const metaExclude: Option<Value>
    const reprFormat: Value
    var fields: map<string, Value>

    constructor (model: ModelClass, metaFields: Option<Value>, metaExclude: Option<Value>, reprFormat: Value,
                 fields: map<string, Value>)
      ensures this.model == model && this.metaFields == metaFields && this.metaExclude == metaExclude
      ensures this.reprFormat == reprFormat && this.fields == fields
    {
      this.model := model;
      this.metaFields := metaFields;
      this.metaExclude := metaExclude;
      this.reprFormat := reprFormat;
      this.fields := fields;
    }

    /** `_add_utz_fields()`, as written. */
    method AddUtzFieldsLoop() returns (e: Option<Error>)
      modifies this
      ensures Outcome(fields, e) == AddAll(model, false, metaFields, metaExclude, reprFormat, old(fields))
    {
      if TIME_RELATED_FIELDS !in model.attrs {
        return Some(AttributeError);
      }
      if !model.attrs[TIME_RELATED_FIELDS].VList? {
        return Some(AssertionError);
      }
      var items := model.attrs[TIME_RELATED_FIELDS].items;
      var i := 0;
      while i < |items|
        invariant 0 <= i <= |items|
        invariant AddUtzFields(model, false, metaFields, metaExclude, reprFormat, old(fields), items)
                  == AddUtzFields(model, false, metaFields, metaExclude, reprFormat, fields, items[i..])
      {
        assert items[i..][1..] == items[i + 1..];
        var f := items[i];
        var selected := SerializerMixins.Processed(metaFields, metaExclude, f);
        if selected.Err? {
          return Some(selected.error);
        }
        if selected.value {
          // `_add_utz_field_for(f)` raises before it can write into `fields`.
          var a := AddUtzFieldFor(model, false, reprFormat, f);
          return Some(a.error);
        }
        i := i + 1;
      }
      assert items[i..] == [];
      return None;
    }
  }

  /** Construction: `ModelSerializer.__init__`, the pre-check, then
      `_add_utz_fields`; the serializer exists only when both succeed. */
  method Create(mixin: string, mixinIsUTZModelMixin: bool, model: ModelClass, metaFields: Option<Value>,
                metaExclude: Option<Value>, reprFormat: Value, fields: map<string, Value>)
    returns (r: Result<UTZModelSerializer>)
    ensures PreCheck(mixin, mixinIsUTZModelMixin, model).Some? ==> r == Err(PreCheck(mixin, mixinIsUTZModelMixin, model).value)
    ensures PreCheck(mixin, mixinIsUTZModelMixin, model).None? ==>
              var o := AddAll(model, false, metaFields, metaExclude, reprFormat, fields);
              (r.Err? <==> o.error.Some?) && (r.Err? ==> r.error == o.error.value)
              && (r.Ok? ==> fresh(r.value) && r.value.fields == o.fields && r.value.model == model)
  {
    var s := new UTZModelSerializer(model, metaFields, metaExclude, reprFormat, fields);
    var pre := PreCheck(mixin, mixinIsUTZModelMixin, model);
    if pre.Some? {
      return Err(pre.value);
    }
    var e := s.AddUtzFieldsLoop();
    if e.Some? {
      return Err(e.value);
    }
    return Ok(s);
  }
}
