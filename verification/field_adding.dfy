/** How the serializer decorators add user-timezone datetime fields to a
    serializer class: for each of the model's datetime fields, in order, skip it
    when it is not included or already defined on the class, else build a
    UTZDateTimeField from the field's declared extra kwargs, with the configured
    format as a default, and set it on the class (django_utz/decorators/serializers.py,
    django_utz/decorators/serializers/decorators.py). */
module FieldAdding {
  import opened Common
  import opened Schema

  /** The serializer class as a step left it, and the exception raised, if any. */
  datatype SerializerOutcome = SerializerOutcome(cls: SerializerClass, error: Option<Error>)

  /** `if "format" not in kwargs: kwargs.update({"format": fmt})`: an explicit
      format is kept, any other kwarg is kept, and the format is always present. */
  function WithDefaultFormat(kwargs: Kwargs, fmt: Value): (r: Kwargs)
    ensures r.Keys == kwargs.Keys + {"format"}
    ensures forall k :: k in kwargs ==> r[k] == kwargs[k]
    ensures "format" !in kwargs ==> r["format"] == fmt
  {
    if "format" in kwargs then kwargs else kwargs["format" := fmt]
  }

  /** A second default never overrides the first. */
  lemma WithDefaultFormatIdempotent(kwargs: Kwargs, fmt: Value, other: Value)
    ensures WithDefaultFormat(WithDefaultFormat(kwargs, fmt), other) == WithDefaultFormat(kwargs, fmt)
  {
  }

  /** The kwargs of a field built by the decorators: the configured format is a
      default only when it is truthy. */
  function FieldKwargs(declared: Kwargs, fmt: Value): (r: Kwargs)
    ensures forall k :: k in declared ==> k in r && r[k] == declared[k]
    ensures Truthy(fmt) ==> "format" in r && ("format" !in declared ==> r["format"] == fmt)
    ensures !Truthy(fmt) ==> r == declared
  {
    if Truthy(fmt) then WithDefaultFormat(declared, fmt) else declared
  }

  /** `getattr(Meta, "extra_kwargs", {}).get(name, {})` */
  function DeclaredKwargs(s: SerializerClass, name: string): Kwargs
  {
    if s.extraKwargs.Some? && name in s.extraKwargs.value then s.extraKwargs.value[name] else map[]
  }

  /** `Meta.extra_kwargs` after the field's kwargs dict is updated in place: an
      entry that is the dict being updated takes the new kwargs. `sharesEmpty` says
      whether an empty entry is that dict too; under `kwargs or {}` it is replaced
      by a fresh one. */
  function StoredKwargs(s: SerializerClass, name: string, kw: Kwargs, sharesEmpty: bool): (r: Option<map<string, Kwargs>>)
    ensures r.Some? <==> s.extraKwargs.Some?
    ensures forall k :: k != name ==> DeclaredKwargs(s.(extraKwargs := r), k) == DeclaredKwargs(s, k)
  {
    if s.extraKwargs.Some? && name in s.extraKwargs.value && (sharesEmpty || s.extraKwargs.value[name] != map[])
    then Some(s.extraKwargs.value[name := kw])
    else s.extraKwargs
  }

  /** One decorator's adding policy: whether a datetime field name is included
      (membership may raise), the default format or the exception raised when the
      field is to be built, and whether an empty kwargs entry is shared. */
  datatype Adding = Adding(included: Value -> Result<bool>, fmt: Result<Value>, sharesEmpty: bool)

  /** The field set on the class for `name`. */
  function NewField(s: SerializerClass, name: string, fmt: Value): Value
  {
    VSerializerField(UTZDateTimeField, FieldKwargs(DeclaredKwargs(s, name), fmt))
  }

  /** One loop iteration for the datetime field `f`. */
  function AddStep(s: SerializerClass, a: Adding, f: Value): (r: Result<SerializerClass>)
  {
    match a.included(f)
    case Err(e) => Err(e)
    case Ok(inc) =>
      if !inc then Ok(s)
      else if !f.VStr? then Err(TypeError)
      else if f.s in s.attrs then Ok(s)
      else
        match a.fmt
        case Err(e) => Err(e)
        case Ok(fmt) =>
          var kw := FieldKwargs(DeclaredKwargs(s, f.s), fmt);
          Ok(s.(attrs := s.attrs[f.s := VSerializerField(UTZDateTimeField, kw)],
                extraKwargs := StoredKwargs(s, f.s, kw, a.sharesEmpty)))
  }

  /** The loop over the datetime fields, stopping at the first exception with the
      class as far as it got. */
  function AddFields(s: SerializerClass, a: Adding, items: seq<Value>): (o: SerializerOutcome)
    decreases |items|
  {
    if items == [] then SerializerOutcome(s, None)
    else
      match AddStep(s, a, items[0])
      case Err(e) => SerializerOutcome(s, Some(e))
      case Ok(s1) => AddFields(s1, a, items[1..])
  }

  /** The loop itself: `setattr` on the class once per field that is added. */
  method AddFieldsLoop(s: SerializerClass, a: Adding, items: seq<Value>) returns (o: SerializerOutcome)
    ensures o == AddFields(s, a, items)
  {
    var cls := s;
    var i := 0;
    while i < |items|
      invariant 0 <= i <= |items|
      invariant AddFields(s, a, items) == AddFields(cls, a, items[i..])
    {
      assert items[i..][1..] == items[i + 1..];
      var f := items[i];
      var inc := a.included(f);
      if inc.Err? {
        return SerializerOutcome(cls, Some(inc.error));
      }
      if inc.value {
        if !f.VStr? {
          return SerializerOutcome(cls, Some(TypeError));
        }
        if f.s !in cls.attrs {
          if a.fmt.Err? {
            return SerializerOutcome(cls, Some(a.fmt.error));
          }
          var kw := FieldKwargs(DeclaredKwargs(cls, f.s), a.fmt.value);
          cls := cls.(attrs := cls.attrs[f.s := VSerializerField(UTZDateTimeField, kw)],
                      extraKwargs := StoredKwargs(cls, f.s, kw, a.sharesEmpty));
        }
      }
      i := i + 1;
    }
    assert items[i..] == [];
    o := SerializerOutcome(cls, None);
  }

  /** `f` names a field the loop would build: included and not yet defined. */
  predicate Wanted(a: Adding, items: seq<Value>, k: string)
  {
    exists i :: 0 <= i < |items| && items[i] == VStr(k) && a.included(items[i]) == Ok(true)
  }

  /** The loop changes nothing but the class's attributes and `Meta.extra_kwargs`. */
  lemma {:induction false} AddFieldsKeepsClass(s: SerializerClass, a: Adding, items: seq<Value>)
    ensures var o := AddFields(s, a, items);
            o.cls == s.(attrs := o.cls.attrs, extraKwargs := o.cls.extraKwargs)
    decreases |items|
  {
    if items != [] {
      var r := AddStep(s, a, items[0]);
      if r.Ok? {
        AddFieldsKeepsClass(r.value, a, items[1..]);
      }
    }
  }

  /** What the loop leaves on the class: every attribute it had, unchanged, and on
      success exactly one new attribute per included datetime field not already
      defined, holding a UTZDateTimeField built from that field's declared kwargs. */
  lemma {:induction false} AddedFields(s: SerializerClass, a: Adding, items: seq<Value>)
    ensures var o := AddFields(s, a, items);
            forall k :: k in s.attrs ==> k in o.cls.attrs && o.cls.attrs[k] == s.attrs[k]
    ensures var o := AddFields(s, a, items);
            forall k :: k in o.cls.attrs && k !in s.attrs ==>
              Wanted(a, items, k) && a.fmt.Ok? && o.cls.attrs[k] == NewField(s, k, a.fmt.value)
    ensures var o := AddFields(s, a, items);
            o.error.None? ==> forall k :: k in o.cls.attrs <==> k in s.attrs || Wanted(a, items, k)
    decreases |items|
  {
    if items != [] {
      var f := items[0];
      var r := AddStep(s, a, f);
      if r.Ok? {
        var s1 := r.value;
        var rest := items[1..];
        AddedFields(s1, a, rest);
        var o := AddFields(s1, a, rest);
        assert AddFields(s, a, items) == o;
        forall k | k in o.cls.attrs && k !in s.attrs
          ensures Wanted(a, items, k) && a.fmt.Ok? && o.cls.attrs[k] == NewField(s, k, a.fmt.value)
        {
          if k in s1.attrs {
            assert items[0] == VStr(k);
          } else {
            var i :| 0 <= i < |rest| && rest[i] == VStr(k) && a.included(rest[i]) == Ok(true);
            assert items[i + 1] == rest[i];
            if s1 != s {
              assert DeclaredKwargs(s1, k) == DeclaredKwargs(s, k);
            }
          }
        }
        if o.error.None? {
          forall k ensures k in o.cls.attrs <==> k in s.attrs || Wanted(a, items, k)
          {
            if Wanted(a, items, k) {
              var i :| 0 <= i < |items| && items[i] == VStr(k) && a.included(items[i]) == Ok(true);
              if i > 0 {
                assert rest[i - 1] == items[i];
              }
            }
          }
        }
      }
    }
  }

  /** When the field cannot be built, the loop adds nothing: the class comes back
      unchanged. */
  lemma {:induction false} NothingAddedWithoutField(s: SerializerClass, a: Adding, items: seq<Value>)
    requires a.fmt.Err?
    ensures AddFields(s, a, items).cls == s
    decreases |items|
  {
    if items != [] {
      NothingAddedWithoutField(s, a, items[1..]);
    }
  }

  /** ... and it fails exactly when some datetime field is included and not yet
      defined on the class. */
  lemma {:induction false} FailsOnFirstWantedField(s: SerializerClass, a: Adding, items: seq<Value>)
    requires a.fmt.Err?
    requires forall i :: 0 <= i < |items| ==> a.included(items[i]).Ok? && items[i].VStr?
    ensures AddFields(s, a, items).error.None? <==>
              forall i :: 0 <= i < |items| && a.included(items[i]) == Ok(true) ==> items[i].s in s.attrs
    ensures AddFields(s, a, items).error.Some? ==> AddFields(s, a, items).error == Some(a.fmt.error)
    decreases |items|
  {
    if items != [] {
      FailsOnFirstWantedField(s, a, items[1..]);
      assert forall i :: 1 <= i < |items| ==> items[i] == items[1..][i - 1];
    }
  }

  /** With a buildable field and only str names whose inclusion test does not
      raise, no step raises. */
  lemma {:induction false} NoStepFails(s: SerializerClass, a: Adding, items: seq<Value>)
    requires a.fmt.Ok?
    requires forall i :: 0 <= i < |items| ==> items[i].VStr? && a.included(items[i]).Ok?
    ensures AddFields(s, a, items).error.None?
    decreases |items|
  {
    if items != [] {
      NoStepFails(AddStep(s, a, items[0]).value, a, items[1..]);
    }
  }
}
