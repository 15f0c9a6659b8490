/** The mixin generation in django_utz/models/mixins.py: `UTZUserModelMixin` for the
    user model and `UTZModelMixin` for models whose datetimes are shown in a related
    user's timezone. */
module ModelMixins {
  import opened Common
  import opened Schema
  import opened Timezone
  import opened Traversal
  import opened RelationPaths
  import opened UserLookup
  import opened GeneratedAttrs
  import UtzMixins

  const USER_MIXIN := "django_utz.models.mixins.UTZUserModelMixin"
  const TIME_RELATED_FIELDS := "time_related_fields"

  /** `_utz_`: `utz` is the value of the timezone attribute (None when absent) and
      `timeZoneSetting` is `settings.TIME_ZONE`. */
  function UserTimezone(db: ZoneDatabases, utz: Value, timeZoneSetting: Value): (r: Result<Value>)
    requires utz.VNone? || IsTimezoneLike(utz)
    ensures r.Err? <==> utz.VNone? || (Truthy(utz) && !IsTimezoneValid(db, utz))
    ensures r.Err? ==> r.error == if utz.VNone? then FieldError else ValueError
    ensures r.Ok? ==> Truthy(r.value)
    ensures r.Ok? ==> r.value == utz || (!Truthy(utz) && (r.value == timeZoneSetting || r.value == VStr("UTC")))
  {
    if utz.VNone? then Err(FieldError)
    else if Truthy(utz) && !IsTimezoneValid(db, utz) then Err(ValueError)
    else if Truthy(utz) then Ok(utz)
    else if Truthy(timeZoneSetting) then Ok(timeZoneSetting)
    else Ok(VStr("UTC"))
  }

  /** An empty timezone falls back to the project setting, then to "UTC". */
  lemma EmptyTimezoneFallsBack(db: ZoneDatabases, timeZoneSetting: Value)
    ensures UserTimezone(db, VStr(""), timeZoneSetting) ==
            Ok(if Truthy(timeZoneSetting) then timeZoneSetting else VStr("UTC"))
  {
  }

  /** `hasattr(instance, name)`: a field or a class attribute. */
  predicate HasAttr(c: ModelClass, name: string)
  {
    name in AllFieldNames(c.fields) || name in c.attrs
  }

  /** `UTZUserModelMixin._model_pre_check`: the class must be an auth user class with a
      timezone attribute; the timezone field, when it is a field, gets
      `validate_timezone` unless it already has it. */
  function UserPreCheck(c: ModelClass, tzField: string): (r: Result<ModelClass>)
    ensures r.Err? <==> !IsAuthUserClass(c) || !HasAttr(c, tzField)
    ensures r.Err? ==> r.error == if !IsAuthUserClass(c) then TypeError else ImproperlyConfigured
    ensures r.Ok? ==> r.value == c.(fields := AddValidatorTo(c.fields, tzField, VALIDATE_TIMEZONE))
  {
    if !IsAuthUserClass(c) then Err(TypeError)
    else if !HasAttr(c, tzField) then Err(ImproperlyConfigured)
    else match GetField(c.fields, tzField)
      case Err(_) => Ok(c)
      case Ok(_) => Ok(c.(fields := AddValidatorTo(c.fields, tzField, VALIDATE_TIMEZONE)))
  }

  /** Running the pre-check on every instantiation leaves the timezone field with
      exactly one `validate_timezone`. */
  lemma UserPreCheckIdempotent(c: ModelClass, tzField: string)
    requires UserPreCheck(c, tzField).Ok?
    ensures UserPreCheck(UserPreCheck(c, tzField).value, tzField) == UserPreCheck(c, tzField)
    ensures forall f :: f in UserPreCheck(c, tzField).value.fields && f.name == tzField ==>
              VALIDATE_TIMEZONE in f.validators
  {
    AddValidatorToIdempotent(c.fields, tzField, VALIDATE_TIMEZONE);
  }

  /** `UTZModelMixin._model_pre_check`: `superclass` is `_model_superclass`; it must be
      a model; a class that is not an auth user class must inherit it, directly or
      through another base; `time_related_fields` must be an attribute. */
  function ModelPreCheck(c: ModelClass, superclass: ModelClass): (r: Result<ModelClass>)
    ensures r.Ok? <==> IsModel(superclass) && (IsAuthUserClass(c) || IsSubclass(c, Qualname(superclass)))
                       && HasAttr(c, TIME_RELATED_FIELDS)
    ensures r.Ok? ==> r.value == c
    ensures r.Err? ==> r.error == if !IsModel(superclass) then AssertionError
                                  else if !IsAuthUserClass(c) && !IsSubclass(c, Qualname(superclass)) then ImproperlyConfigured
                                  else AttributeError
  {
    if !IsModel(superclass) then Err(AssertionError)
    else if !IsAuthUserClass(c) && !IsSubclass(c, Qualname(superclass)) then Err(ImproperlyConfigured)
    else if !HasAttr(c, TIME_RELATED_FIELDS) then Err(AttributeError)
    else Ok(c)
  }

  /** Where the earlier generation insists on a direct base, this one accepts a
      model that inherits `_model_superclass` through another base. */
  lemma InheritedBaseAccepted(c: ModelClass, superclass: ModelClass)
    requires IsModel(superclass) && TIME_RELATED_FIELDS in c.attrs
    requires Qualname(superclass) in c.ancestors && Qualname(superclass) !in c.bases
    ensures ModelPreCheck(c, superclass) == Ok(c)
    ensures UtzMixins.ModelPreCheck(c, superclass) == Err(NotImplementedError)
  {
    UtzMixins.InheritedOnlyBaseRejected(c, superclass);
  }

  /** `issubclass(user.__class__, mixin)`: only model instances can pass. */
  predicate HasMixin(schema: Schema, heap: Heap, user: Value, mixin: string)
  {
    IsInstance(schema, heap, user) && IsSubclass(ClassOf(schema, heap, user), mixin)
  }

  /** `_check_user_model_has_utz_mixin`. */
  function CheckUserHasMixin(schema: Schema, heap: Heap, user: Value): (r: Result<bool>)
    ensures r.Ok? <==> HasMixin(schema, heap, user, USER_MIXIN)
    ensures r.Ok? ==> r.value
    ensures r.Err? ==> r.error == ImproperlyConfigured
  {
    if HasMixin(schema, heap, user, USER_MIXIN) then Ok(true) else Err(ImproperlyConfigured)
  }

  /** `find_user_related_model_field` with `fuel` frames of stack left. */
  method FindUserRelatedModelField(schema: Schema, model: string, fuel: nat) returns (r: Result<Option<string>>)
    requires Closed(schema) && model in schema
    ensures r == AsFieldPath(Discover(MixinPolicy(schema), schema, model, [], fuel))
  {
    var d := FindPath(MixinPolicy(schema), schema, model, fuel);
    r := AsFieldPath(d);
  }

  /** The user whose timezone a property of `obj` uses: `obj` itself for a user class,
      else the instance at the end of the discovered path; checked for the user mixin
      only when `obj` has a primary key. */
  function PropertyUser(schema: Schema, heap: Heap, obj: Value, pk: Value, fuel: nat): Result<Value>
    requires Closed(schema) && IsInstance(schema, heap, obj)
  {
    var user :=
      if IsAuthUserClass(ClassOf(schema, heap, obj)) then Ok(obj)
      else match AsFieldPath(Discover(MixinPolicy(schema), schema, heap[obj.id].cls, [], fuel))
        case Err(e) => Err(e)
        case Ok(None) => Err(FieldError)
        case Ok(Some(path)) => if path == [] then Err(FieldError) else Ok(Traverse(heap, obj, path, VNone));
    match user
    case Err(e) => Err(e)
    case Ok(u) =>
      if Truthy(pk) then
        match CheckUserHasMixin(schema, heap, u)
        case Err(e) => Err(e)
        case Ok(_) => Ok(u)
      else Ok(u)
  }

  /** `_create_utz_method_for(field)`: the property that shows `field` in the user's
      timezone. */
  function CreateUtzMethodFor(schema: Schema, heap: Heap, obj: Value, timeRelated: seq<Value>, pk: Value, fuel: nat,
                              field: string): (r: Result<Value>)
    requires Closed(schema) && IsInstance(schema, heap, obj)
    ensures VStr(field) !in timeRelated ==> r == Err(ValueError)
    ensures VStr(field) in timeRelated && PropertyUser(schema, heap, obj, pk, fuel).Err? ==>
              r == Err(PropertyUser(schema, heap, obj, pk, fuel).error)
    ensures VStr(field) in timeRelated && PropertyUser(schema, heap, obj, pk, fuel).Ok? ==>
              r == Ok(VUtzProperty(field, PropertyUser(schema, heap, obj, pk, fuel).value))
  {
    if VStr(field) !in timeRelated then Err(ValueError)
    else match PropertyUser(schema, heap, obj, pk, fuel)
      case Err(e) => Err(e)
      case Ok(u) => Ok(VUtzProperty(field, u))
  }

  /** The property builder `_generate_utz_properties` calls for each field. */
  function Maker(schema: Schema, heap: Heap, obj: Value, timeRelated: seq<Value>, pk: Value, fuel: nat)
    : string -> Result<Value>
    requires Closed(schema) && IsInstance(schema, heap, obj)
  {
    f => CreateUtzMethodFor(schema, heap, obj, timeRelated, pk, fuel, f)
  }

  /** `_generate_utz_properties`: `time_related_fields` must be exactly a list; one
      property per listed field is set on the class. */
  method GenerateUtzProperties(schema: Schema, heap: Heap, obj: Value, timeRelated: Value, suffix: string,
                               attrs: map<string, Value>, pk: Value, fuel: nat) returns (r: Result<Install>)
    requires Closed(schema) && IsInstance(schema, heap, obj)
    requires timeRelated.VList? ==> forall i :: 0 <= i < |timeRelated.items| ==> timeRelated.items[i].VStr?
    ensures !timeRelated.VList? ==> r == Err(AssertionError)
    ensures timeRelated.VList? ==>
              r == Ok(InstallAll(attrs, Strs(timeRelated.items), suffix, Maker(schema, heap, obj, timeRelated.items, pk, fuel)))
  {
    if !timeRelated.VList? {
      return Err(AssertionError);
    }
    var installed := SetAttrsFor(attrs, Strs(timeRelated.items), suffix, Maker(schema, heap, obj, timeRelated.items, pk, fuel));
    return Ok(installed);
  }

  /** What the generator leaves: with a resolvable user, one property per listed field
      and nothing else changed; otherwise, with at least one field, the user's
      exception and the class untouched. */
  lemma GeneratedProperties(schema: Schema, heap: Heap, obj: Value, items: seq<Value>, suffix: string,
                            attrs: map<string, Value>, pk: Value, fuel: nat)
    requires Closed(schema) && IsInstance(schema, heap, obj)
    requires forall i :: 0 <= i < |items| ==> items[i].VStr?
    ensures var u := PropertyUser(schema, heap, obj, pk, fuel);
            var result := InstallAll(attrs, Strs(items), suffix, Maker(schema, heap, obj, items, pk, fuel));
            (u.Ok? ==> result == Install(Installed(attrs, Strs(items), suffix, PropertyOf(u.value)), None)) &&
            (u.Err? && items != [] ==> result == Install(attrs, Some(u.error)))
  {
    var names := Strs(items);
    var make := Maker(schema, heap, obj, items, pk, fuel);
    var u := PropertyUser(schema, heap, obj, pk, fuel);
    forall f | f in names ensures VStr(f) in items {
      var i :| 0 <= i < |names| && names[i] == f;
      assert items[i] == VStr(f);
    }
    if u.Ok? {
      InstallAllSucceeds(attrs, names, suffix, make, PropertyOf(u.value));
    } else if items != [] {
      assert VStr(names[0]) in items;
      InstallAllStopsAtFirstError(attrs, names, 0, suffix, make, PropertyOf(VNone));
      assert names[..0] == [];
    }
  }

  /** An unsaved instance (no primary key) skips the user-mixin check; a saved one
      needs a user whose class has the mixin. */
  lemma MixinCheckOnlyWhenSaved(schema: Schema, heap: Heap, obj: Value, fuel: nat)
    requires Closed(schema) && IsInstance(schema, heap, obj)
    requires IsAuthUserClass(ClassOf(schema, heap, obj))
    ensures PropertyUser(schema, heap, obj, VNone, fuel) == Ok(obj)
    ensures PropertyUser(schema, heap, obj, VInt(1), fuel) ==
            if HasMixin(schema, heap, obj, USER_MIXIN) then Ok(obj) else Err(ImproperlyConfigured)
  {
  }
}
