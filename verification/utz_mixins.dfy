/** The earlier mixin generation in django_utz_mixins/mixins.py: no timezone
    fallback, a direct-base check, a single-level user-field scan and an
    unconditional user-mixin check. */
module UtzMixins {
  import opened Common
  import opened Schema
  import opened Timezone
  import opened Traversal
  import opened RelationPaths
  import opened UserLookup
  import opened GeneratedAttrs

  const USER_MIXIN := "django_utz_mixins.mixins.UTZUserModelMixin"
  const TIME_RELATED_FIELDS := "time_related_fields"

  /** `is_timezone_valid` of django_utz_mixins/utils.py: `pytz.timezone(name)` without
      an `UnknownTimeZoneError`. Only pytz is consulted; a tzinfo object has no
      `upper`, so `pytz.timezone` raises AttributeError, which is not caught. */
  function PytzOnlyValid(db: ZoneDatabases, tz: Value): (r: Result<bool>)
    requires IsTimezoneLike(tz)
    ensures r.Err? <==> tz.VTzInfo?
    ensures r.Err? ==> r.error == AttributeError
    ensures r.Ok? ==> (r.value <==> tz.s in db.pytz)
  {
    match tz
    case VTzInfo(_) => Err(AttributeError)
    case VStr(name) => Ok(name in db.pytz)
  }

  /** `_utz_`: the stored value itself, which may be empty. */
  function UserTimezone(db: ZoneDatabases, utz: Value): (r: Result<Value>)
    requires utz.VNone? || IsTimezoneLike(utz)
    ensures r.Ok? <==> utz.VStr? && (utz.s == "" || utz.s in db.pytz)
    ensures r.Ok? ==> r.value == utz
    ensures r.Err? ==> r.error == if utz.VNone? then FieldError
                                  else if utz.VTzInfo? then AttributeError
                                  else ValueError
  {
    if utz.VNone? then Err(FieldError)
    else if !Truthy(utz) then Ok(utz)
    else match PytzOnlyValid(db, utz)
      case Err(e) => Err(e)
      case Ok(valid) => if valid then Ok(utz) else Err(ValueError)
  }

  /** Unlike the later generation, an empty timezone comes back empty. */
  lemma EmptyTimezoneStaysEmpty(db: ZoneDatabases)
    ensures UserTimezone(db, VStr("")) == Ok(VStr(""))
  {
  }

  /** What this generation accepts, the later one accepts too; a name only zoneinfo
      knows, and every tzinfo object, are accepted there and rejected here. */
  lemma StricterThanLaterGeneration(db: ZoneDatabases, utz: Value)
    requires IsTimezoneLike(utz) && Truthy(utz)
    ensures UserTimezone(db, utz).Ok? ==> IsTimezoneValid(db, utz)
    ensures utz.VTzInfo? ==> IsTimezoneValid(db, utz) && UserTimezone(db, utz) == Err(AttributeError)
    ensures utz.VStr? && utz.s in db.zoneinfo && utz.s !in db.pytz ==>
              IsTimezoneValid(db, utz) && UserTimezone(db, utz) == Err(ValueError)
  {
  }

  /** `UTZUserModelMixin._model_pre_check`. */
  function UserPreCheck(c: ModelClass): (r: Result<ModelClass>)
    ensures r.Ok? <==> IsAuthUserClass(c)
    ensures r.Ok? ==> r.value == c
    ensures r.Err? ==> r.error == TypeError
  {
    if IsAuthUserClass(c) then Ok(c) else Err(TypeError)
  }

  /** `UTZModelMixin._model_pre_check`: `superclass` is `_model_superclass`; it must be a
      model and one of the class's DIRECT bases, and `time_related_fields` must be an
      attribute (the mixin defines a default). */
  function ModelPreCheck(c: ModelClass, superclass: ModelClass): (r: Result<ModelClass>)
    ensures r.Ok? <==> IsModel(superclass) && Qualname(superclass) in c.bases && TIME_RELATED_FIELDS in c.attrs
    ensures r.Ok? ==> r.value == c
    ensures r.Err? ==> r.error == if !IsModel(superclass) then AssertionError
                                  else if Qualname(superclass) !in c.bases then NotImplementedError
                                  else AttributeError
  {
    if !IsModel(superclass) then Err(AssertionError)
    else if Qualname(superclass) !in c.bases then Err(NotImplementedError)
    else if TIME_RELATED_FIELDS !in c.attrs then Err(AttributeError)
    else Ok(c)
  }

  /** A model that inherits `_model_superclass` only through another base is rejected. */
  lemma InheritedOnlyBaseRejected(c: ModelClass, superclass: ModelClass)
    requires IsModel(superclass)
    requires Qualname(superclass) in c.ancestors && Qualname(superclass) !in c.bases
    ensures IsSubclass(c, Qualname(superclass))
    ensures ModelPreCheck(c, superclass) == Err(NotImplementedError)
  {
  }

  /** The field targets a model of the schema that is an auth user class. */
  predicate IsUserField(schema: Schema, f: Field)
  {
    f.target.Some? && f.target.value in schema && IsAuthUserClass(schema[f.target.value])
  }

  /** `_find_user_related_model_field`: the first of the model's own concrete fields
      whose related model is a user class. */
  function FindUserRelatedModelField(schema: Schema, fields: seq<Field>): (r: Option<string>)
    ensures r.Some? ==> exists i :: 0 <= i < |fields| && fields[i].name == r.value && IsUserField(schema, fields[i]) &&
                          !fields[i].kind.ManyToMany? && !fields[i].kind.Reverse?
    ensures r.None? <==> forall f :: f in ConcreteFields(fields) ==> !IsUserField(schema, f)
    ensures r.Some? ==> var fs := ConcreteFields(fields);
              exists i :: 0 <= i < |fs| && fs[i].name == r.value && IsUserField(schema, fs[i]) &&
                forall j :: 0 <= j < i ==> !IsUserField(schema, fs[j])
  {
    ConcreteFieldsMembers(fields);
    var fs := ConcreteFields(fields);
    match FirstUserField(schema, fs)
    case None => None
    case Some(i) => Some(fs[i].name)
  }

  function FirstUserField(schema: Schema, fs: seq<Field>): (r: Option<nat>)
    ensures r.Some? ==> r.value < |fs| && IsUserField(schema, fs[r.value])
    ensures r.Some? ==> forall j :: 0 <= j < r.value ==> !IsUserField(schema, fs[j])
    ensures r.None? ==> forall j :: 0 <= j < |fs| ==> !IsUserField(schema, fs[j])
  {
    if fs == [] then None
    else if IsUserField(schema, fs[0]) then Some(0)
    else match FirstUserField(schema, fs[1..])
      case None => None
      case Some(i) => Some(i + 1)
  }

  /** The single-level scan finds a user field declared after another relation, which
      the recursive search of the later generation misses. */
  lemma FindsLaterUserField(p: Policy, fuel: nat)
    requires fuel >= 2
    requires "app.models.User" in p.users
    requires "shop.models.Book" !in p.users && "shop.models.Publisher" !in p.users
    ensures FindUserRelatedModelField(BookSchema(), BookSchema()["shop.models.Book"].fields) == Some("author")
    ensures Discover(p, BookSchema(), "shop.models.Book", [], fuel) == NotFound
  {
    var schema := BookSchema();
    var fs := schema["shop.models.Book"].fields;
    assert ConcreteFields(fs) == fs;
    assert !IsUserField(schema, fs[0]) && IsUserField(schema, fs[1]);
    LaterUserRelationIsMissed(p, fuel);
  }

  /** `_check_user_model_has_utz_mixin`. */
  function CheckUserHasMixin(schema: Schema, heap: Heap, user: Value): (r: Result<bool>)
    ensures r.Ok? <==> IsInstance(schema, heap, user) && IsSubclass(ClassOf(schema, heap, user), USER_MIXIN)
    ensures r.Ok? ==> r.value
    ensures r.Err? ==> r.error == NotImplementedError
  {
    if IsInstance(schema, heap, user) && IsSubclass(ClassOf(schema, heap, user), USER_MIXIN) then Ok(true)
    else Err(NotImplementedError)
  }

  /** The user a property of `obj` uses, always checked for the user mixin. */
  function PropertyUser(schema: Schema, heap: Heap, obj: Value): Result<Value>
    requires IsInstance(schema, heap, obj)
  {
    var c := ClassOf(schema, heap, obj);
    var user :=
      if IsAuthUserClass(c) then Ok(obj)
      else match FindUserRelatedModelField(schema, c.fields)
        case None => Err(FieldError)
        case Some(name) =>
          match GetAttr(heap, obj, name)
          case None => Err(AttributeError)
          case Some(u) => Ok(u);
    match user
    case Err(e) => Err(e)
    case Ok(u) =>
      match CheckUserHasMixin(schema, heap, u)
      case Err(e) => Err(e)
      case Ok(_) => Ok(u)
  }

  /** `_create_utz_method_for(field)`. */
  function CreateUtzMethodFor(schema: Schema, heap: Heap, obj: Value, timeRelated: seq<Value>, field: string)
    : (r: Result<Value>)
    requires IsInstance(schema, heap, obj)
    ensures VStr(field) !in timeRelated ==> r == Err(ValueError)
    ensures VStr(field) in timeRelated && PropertyUser(schema, heap, obj).Err? ==>
              r == Err(PropertyUser(schema, heap, obj).error)
    ensures VStr(field) in timeRelated && PropertyUser(schema, heap, obj).Ok? ==>
              r == Ok(VUtzProperty(field, PropertyUser(schema, heap, obj).value))
  {
    if VStr(field) !in timeRelated then Err(ValueError)
    else match PropertyUser(schema, heap, obj)
      case Err(e) => Err(e)
      case Ok(u) => Ok(VUtzProperty(field, u))
  }

  /** A property's user always has the user mixin: the check is not skipped for unsaved
      instances. */
  lemma PropertyUserHasMixin(schema: Schema, heap: Heap, obj: Value, timeRelated: seq<Value>, field: string)
    requires IsInstance(schema, heap, obj)
    requires CreateUtzMethodFor(schema, heap, obj, timeRelated, field).Ok?
    ensures var p := CreateUtzMethodFor(schema, heap, obj, timeRelated, field).value;
            p.VUtzProperty? && p.field == field &&
            IsInstance(schema, heap, p.user) && IsSubclass(ClassOf(schema, heap, p.user), USER_MIXIN)
  {
  }

  function Maker(schema: Schema, heap: Heap, obj: Value, timeRelated: seq<Value>): string -> Result<Value>
    requires IsInstance(schema, heap, obj)
  {
    f => CreateUtzMethodFor(schema, heap, obj, timeRelated, f)
  }

  /** `_generate_utz_properties`: `time_related_fields` must be exactly a list. */
  method GenerateUtzProperties(schema: Schema, heap: Heap, obj: Value, timeRelated: Value, suffix: string,
                               attrs: map<string, Value>) returns (r: Result<Install>)
    requires IsInstance(schema, heap, obj)
    requires timeRelated.VList? ==> forall i :: 0 <= i < |timeRelated.items| ==> timeRelated.items[i].VStr?
    ensures !timeRelated.VList? ==> r == Err(AssertionError)
    ensures timeRelated.VList? ==>
              r == Ok(InstallAll(attrs, Strs(timeRelated.items), suffix, Maker(schema, heap, obj, timeRelated.items)))
  {
    if !timeRelated.VList? {
      return Err(AssertionError);
    }
    var installed := SetAttrsFor(attrs, Strs(timeRelated.items), suffix, Maker(schema, heap, obj, timeRelated.items));
    return Ok(installed);
  }

  /** With a resolvable user, one property named "<field>_<suffix>" per listed field. */
  lemma GeneratedProperties(schema: Schema, heap: Heap, obj: Value, items: seq<Value>, suffix: string,
                            attrs: map<string, Value>)
    requires IsInstance(schema, heap, obj)
    requires forall i :: 0 <= i < |items| ==> items[i].VStr?
    requires PropertyUser(schema, heap, obj).Ok?
    ensures var u := PropertyUser(schema, heap, obj).value;
            var result := InstallAll(attrs, Strs(items), suffix, Maker(schema, heap, obj, items));
            result.error.None? &&
            forall i :: 0 <= i < |items| ==>
              AttrName(items[i].s, suffix) in result.attrs &&
              result.attrs[AttrName(items[i].s, suffix)] == VUtzProperty(items[i].s, u)
  {
    var names := Strs(items);
    var u := PropertyUser(schema, heap, obj).value;
    forall f | f in names ensures Maker(schema, heap, obj, items)(f) == Ok(PropertyOf(u)(f)) {
      var i :| 0 <= i < |names| && names[i] == f;
      assert items[i] == VStr(f);
    }
    InstallAllSucceeds(attrs, names, suffix, Maker(schema, heap, obj, items), PropertyOf(u));
    assert forall i :: 0 <= i < |items| ==> names[i] in names;
  }
}
