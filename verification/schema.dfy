/** The framework replaced by plain data: model classes and serializer classes as
    descriptors. A model class carries its ordered fields, its superclasses (for
    `issubclass`), its direct bases (for `__bases__`), its `UTZMeta` and its class
    attributes. Mutating a class is modelled by returning an updated descriptor. */
module Schema {
  import opened Common

  /** Field classes that matter to the core. ManyToMany and Reverse are reachable
      through `_meta.get_fields()` but are not part of `_meta.fields`. */
  datatype FieldKind =
    | ForeignKey | OneToOne | OtherRelation | ManyToMany | Reverse
    | DateTimeKind | DateKind | TimeKind | Plain

  /** A model field: its name, class, related model (for relations) and validators
      (by function name). */
  datatype Field = Field(name: string, kind: FieldKind, target: Option<string>, validators: seq<string>)

  /** `UTZMeta` on a class: missing, bound to something that is not a class, or a
      class whose attributes are the configuration. */
  datatype Meta = NoMeta | NotAClass | MetaClass(configs: map<string, Value>)

  datatype ModelClass = ModelClass(
    moduleName: string,
    name: string,
    ancestors: set<string>,
    bases: seq<string>,
    fields: seq<Field>,
    meta: Meta,
    attrs: map<string, Value>)

  /** All model classes, keyed by qualified name. */
  type Schema = map<string, ModelClass>

  const MODEL_BASE := "django.db.models.Model"
  const ABSTRACT_BASE_USER := "django.contrib.auth.base_user.AbstractBaseUser"
  const ABSTRACT_USER := "django.contrib.auth.models.AbstractUser"
  const AUTH_USER := "django.contrib.auth.models.User"
  const VALIDATE_TIMEZONE := "validate_timezone"

  /** "<__module__>.<__name__>" */
  function Qualname(c: ModelClass): string
  {
    c.moduleName + "." + c.name
  }

  /** `issubclass(c, q)` for the class whose qualified name is `q`. */
  predicate IsSubclass(c: ModelClass, q: string)
  {
    q == Qualname(c) || q in c.ancestors
  }

  predicate IsModel(c: ModelClass)
  {
    IsSubclass(c, MODEL_BASE)
  }

  /** `issubclass(c, (AbstractBaseUser, AbstractUser, User))` */
  predicate IsAuthUserClass(c: ModelClass)
  {
    IsSubclass(c, ABSTRACT_BASE_USER) || IsSubclass(c, ABSTRACT_USER) || IsSubclass(c, AUTH_USER)
  }

  /** `_meta.fields`: the concrete forward fields, in declaration order. */
  function ConcreteFields(fields: seq<Field>): (r: seq<Field>)
    ensures |r| <= |fields|
  {
    if fields == [] then []
    else
      (if fields[0].kind.ManyToMany? || fields[0].kind.Reverse? then [] else [fields[0]])
      + ConcreteFields(fields[1..])
  }

  /** `_meta.fields` holds exactly the fields that are neither many-to-many nor
      reverse relations. */
  lemma {:induction false} ConcreteFieldsMembers(fields: seq<Field>)
    ensures forall f :: f in ConcreteFields(fields) <==> f in fields && !(f.kind.ManyToMany? || f.kind.Reverse?)
  {
    if fields != [] {
      ConcreteFieldsMembers(fields[1..]);
      assert fields == [fields[0]] + fields[1..];
    }
  }

  /** `_meta.get_field(name)`: the first field with that name. */
  function GetField(fields: seq<Field>, name: string): (r: Result<Field>)
    ensures r.Ok? <==> exists f :: f in fields && f.name == name
    ensures r.Ok? ==> r.value in fields && r.value.name == name
    ensures r.Err? ==> r.error == FieldDoesNotExist
  {
    if fields == [] then Err(FieldDoesNotExist)
    else if fields[0].name == name then Ok(fields[0])
    else GetField(fields[1..], name)
  }

  /** `is_datetime_field(model, name)`: FieldDoesNotExist propagates. */
  function IsDateTimeField(c: ModelClass, name: string): (r: Result<bool>)
    ensures r.Ok? <==> exists f :: f in c.fields && f.name == name
    ensures r.Ok? ==> (r.value <==> GetField(c.fields, name).value.kind.DateTimeKind?)
  {
    match GetField(c.fields, name)
    case Ok(f) => Ok(f.kind.DateTimeKind?)
    case Err(e) => Err(e)
  }

  /** `is_time_field(model, name)` */
  function IsTimeField(c: ModelClass, name: string): (r: Result<bool>)
    ensures r.Ok? <==> exists f :: f in c.fields && f.name == name
    ensures r.Ok? ==> (r.value <==> GetField(c.fields, name).value.kind.TimeKind?)
  {
    match GetField(c.fields, name)
    case Ok(f) => Ok(f.kind.TimeKind?)
    case Err(e) => Err(e)
  }

  /** Names of the DateTimeFields among `_meta.fields`, in declaration order. */
  function DateTimeFieldNames(fields: seq<Field>): (r: seq<string>)
    ensures forall n :: n in r <==> exists f :: f in fields && f.kind.DateTimeKind? && f.name == n
  {
    if fields == [] then []
    else (if fields[0].kind.DateTimeKind? then [fields[0].name] else [])
         + DateTimeFieldNames(fields[1..])
  }

  /** Names of all fields, `_meta.get_fields()` included. */
  function AllFieldNames(fields: seq<Field>): (r: set<string>)
    ensures forall n :: n in r <==> exists f :: f in fields && f.name == n
  {
    set f | f in fields :: f.name
  }

  /** `getattr(UTZMeta, key, default)` where UTZMeta is known to exist. A non-class
      UTZMeta is taken to have no configuration attributes. */
  function MetaGet(meta: Meta, key: string, default: Value): (r: Value)
    ensures meta.MetaClass? && key in meta.configs ==> r == meta.configs[key]
    ensures !(meta.MetaClass? && key in meta.configs) ==> r == default
  {
    if meta.MetaClass? && key in meta.configs then meta.configs[key] else default
  }

  /** `getattr(cls, "UTZMeta", None) and getattr(cls.UTZMeta, "_decorated", False)` */
  predicate MetaIsDecorated(meta: Meta)
  {
    meta.MetaClass? && Truthy(MetaGet(meta, "_decorated", VBool(false)))
  }

  /** A validator list with `v` appended only when it is not already there. */
  function WithValidatorOnce(vs: seq<string>, v: string): (r: seq<string>)
    ensures v in r
    ensures multiset(r)[v] == if v in vs then multiset(vs)[v] else 1
    ensures forall w :: w != v ==> multiset(r)[w] == multiset(vs)[w]
    ensures |vs| <= |r| && r[..|vs|] == vs
  {
    if v in vs then vs else vs + [v]
  }

  /** Adding the validator a second time changes nothing: repeated checks leave the
      list exactly as one check left it. */
  lemma WithValidatorOnceIdempotent(vs: seq<string>, v: string)
    ensures WithValidatorOnce(WithValidatorOnce(vs, v), v) == WithValidatorOnce(vs, v)
    ensures v !in vs ==> multiset(WithValidatorOnce(WithValidatorOnce(vs, v), v))[v] == 1
  {
  }

  /** The fields with `name`'s validators replaced by `WithValidatorOnce`. */
  function AddValidatorTo(fields: seq<Field>, name: string, v: string): (r: seq<Field>)
    ensures |r| == |fields|
    ensures forall i :: 0 <= i < |fields| ==>
              r[i].name == fields[i].name && r[i].kind == fields[i].kind && r[i].target == fields[i].target
    ensures forall i :: 0 <= i < |fields| ==>
              r[i].validators == (if fields[i].name == name then WithValidatorOnce(fields[i].validators, v)
                                  else fields[i].validators)
  {
    if fields == [] then []
    else
      var f := fields[0];
      [if f.name == name then f.(validators := WithValidatorOnce(f.validators, v)) else f]
      + AddValidatorTo(fields[1..], name, v)
  }

  /** Adding the validator twice leaves the fields as adding it once; field names are
      unchanged and the named field ends up carrying it. */
  lemma AddValidatorToIdempotent(fields: seq<Field>, name: string, v: string)
    ensures AddValidatorTo(AddValidatorTo(fields, name, v), name, v) == AddValidatorTo(fields, name, v)
    ensures AllFieldNames(AddValidatorTo(fields, name, v)) == AllFieldNames(fields)
    ensures forall f :: f in AddValidatorTo(fields, name, v) && f.name == name ==> v in f.validators
  {
    var once := AddValidatorTo(fields, name, v);
    var twice := AddValidatorTo(once, name, v);
    forall i | 0 <= i < |once| ensures twice[i] == once[i] {
      if once[i].name == name {
        WithValidatorOnceIdempotent(fields[i].validators, v);
      }
    }
    forall n ensures n in AllFieldNames(once) <==> n in AllFieldNames(fields) {
      if n in AllFieldNames(fields) {
        var i :| 0 <= i < |fields| && fields[i].name == n;
        assert once[i] in once;
      }
      if n in AllFieldNames(once) {
        var i :| 0 <= i < |once| && once[i].name == n;
        assert fields[i] in fields;
      }
    }
  }

  /** A serializer class: whether it is a ModelSerializer, its `Meta` (fields,
      exclude, extra_kwargs; None when unset), its `UTZMeta` and its class attributes.
      `Meta.model`, the model class, is passed alongside it. */
  datatype SerializerClass = SerializerClass(
    isModelSerializer: bool,
    metaFields: Option<Value>,
    metaExclude: Option<Value>,
    extraKwargs: Option<map<string, Kwargs>>,
    meta: Meta,
    attrs: map<string, Value>)
}
