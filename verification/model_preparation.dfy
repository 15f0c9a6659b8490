/** What the model decorators do to a model class, shared by the function-style
    decorators (django_utz/decorators/models.py) and the class-based ones
    (django_utz/decorators/models/bases.py, django_utz/decorators/models/decorators.py):
    the checks a class must pass, the user model's preparation (validator on the
    timezone field, user mixin prepended to the bases) and a regular model's
    preparation (defaults filled in, then one read-only attribute per listed
    datetime field). The two generations differ only in their `Rules`. */
module ModelPreparation {
  import opened Common
  import opened Schema
  import opened ConfigStore
  import opened GeneratedAttrs

  /** One decorator generation's configuration rules: the names it admits, the
      names it requires, its validators and the exception kind it raises for a bad
      configuration. */
  datatype Rules = Rules(allowed: seq<string>, required: seq<string>,
                         validators: map<string, Validator>, configError: Error)

  const TIMEZONE_FIELD := "timezone_field"
  const DATETIME_FIELDS := "datetime_fields"
  const ATTRIBUTE_SUFFIX := "attribute_suffix"
  const USE_RELATED_USER_TIMEZONE := "use_related_user_timezone"
  const RELATED_USER := "related_user"
  const DEFAULT_ATTRIBUTE_SUFFIX := "utz"

  const USER_MODEL_CONFIGS: seq<string> := [TIMEZONE_FIELD]
  const MODEL_CONFIGS: seq<string> := [DATETIME_FIELDS, ATTRIBUTE_SUFFIX, USE_RELATED_USER_TIMEZONE, RELATED_USER]

  /** The user model's rules: `timezone_field` is required and must be a str. */
  function UserRules(err: Error): Rules
  {
    Rules(USER_MODEL_CONFIGS, [TIMEZONE_FIELD],
          map[TIMEZONE_FIELD := Validator("validate_timezone_field", MustBeStr, err)], err)
  }

  /** The validators of a regular model's configuration; `withRelatedUser` says
      whether `related_user` has one too. */
  function RegularValidators(err: Error, withRelatedUser: bool): (r: map<string, Validator>)
    ensures DATETIME_FIELDS in r && r[DATETIME_FIELDS].check == MustBeSequenceOrAll
    ensures ATTRIBUTE_SUFFIX in r && r[ATTRIBUTE_SUFFIX].check == MustBeStr
    ensures USE_RELATED_USER_TIMEZONE in r && r[USE_RELATED_USER_TIMEZONE].check == MustBeBool
    ensures RELATED_USER in r <==> withRelatedUser
    ensures forall k :: k in r ==> r[k].error == err
  {
    map[DATETIME_FIELDS := Validator("validate_datetime_fields", MustBeSequenceOrAll, err),
        ATTRIBUTE_SUFFIX := Validator("validate_attribute_suffix", MustBeStr, err),
        USE_RELATED_USER_TIMEZONE := Validator("validate_use_related_user_timezone", MustBeBool, err)]
    + (if withRelatedUser then map[RELATED_USER := Validator("validate_related_user", MustBeStr, err)] else map[])
  }

  /** A regular model's rules: `datetime_fields` is required. */
  function RegularRules(err: Error, withRelatedUser: bool): Rules
  {
    Rules(MODEL_CONFIGS, [DATETIME_FIELDS], RegularValidators(err, withRelatedUser), err)
  }

  /** The class as a decorator step left it, and the exception that stopped it, if
      any. Changes made before the exception stay on the class. */
  datatype Outcome = Outcome(cls: ModelClass, error: Option<Error>)

  /** The first of `required` whose configuration is missing or falsy. */
  function FirstUnset(meta: Meta, required: seq<string>): (r: Option<string>)
    ensures r.None? <==> forall k :: k in required ==> Truthy(MetaGet(meta, k, VNone))
    ensures r.Some? ==> r.value in required && !Truthy(MetaGet(meta, r.value, VNone))
  {
    if required == [] then None
    else if !Truthy(MetaGet(meta, required[0], VNone)) then Some(required[0])
    else FirstUnset(meta, required[1..])
  }

  /** `check_model_class(model_class, required_configs)` and the checks that share
      its sequence: not a model, no `UTZMeta`, `UTZMeta` not a class, then each
      required configuration; None for `required` is a loop over None. */
  function CheckModelClass(c: ModelClass, required: Option<seq<string>>, configError: Error): (r: Result<ModelClass>)
    ensures r.Ok? ==> r.value == c
    ensures r.Ok? <==> IsModel(c) && c.meta.MetaClass? && required.Some?
                       && forall k :: k in required.value ==> Truthy(MetaGet(c.meta, k, VNone))
    ensures !IsModel(c) ==> r == Err(TypeError)
    ensures IsModel(c) && c.meta.NoMeta? ==> r == Err(AttributeError)
    ensures IsModel(c) && c.meta.NotAClass? ==> r == Err(configError)
    ensures IsModel(c) && c.meta.MetaClass? && required.None? ==> r == Err(TypeError)
    ensures IsModel(c) && c.meta.MetaClass? && required.Some? && r.Err? ==> r.error == configError
  {
    if !IsModel(c) then Err(TypeError)
    else if c.meta.NoMeta? then Err(AttributeError)
    else if c.meta.NotAClass? then Err(configError)
    else if required.None? then Err(TypeError)
    else if FirstUnset(c.meta, required.value).Some? then Err(configError)
    else Ok(c)
  }

  /** The getter over a class's `UTZMeta` under `rules`. */
  function GetConfigOf(rules: Rules, c: ModelClass, config: string, default: Value): Result<Value>
  {
    Lookup(rules.validators, c.meta, config, default)
  }

  /** The setter over a class's `UTZMeta` under `rules`: the updated class. */
  function SetConfigOn(rules: Rules, c: ModelClass, config: string, value: Value): (r: Result<ModelClass>)
    ensures r.Ok? ==> r.value == c.(meta := r.value.meta)
  {
    match Store(rules.allowed, rules.validators, rules.configError, c.meta, config, value)
    case Ok(m) => Ok(c.(meta := m))
    case Err(e) => Err(e)
  }

  /** The class with `UTZMeta._decorated` set, as a direct attribute assignment. */
  function MarkDecorated(c: ModelClass): (r: ModelClass)
    ensures r.meta.MetaClass? && MetaIsDecorated(r.meta)
  {
    c.(meta := MetaClass((if c.meta.MetaClass? then c.meta.configs else map[])["_decorated" := VBool(true)]))
  }

  /** The class with `mixin` prepended to its bases. */
  function WithMixin(c: ModelClass, mixin: string): (r: ModelClass)
    ensures r.bases == [mixin] + c.bases && IsSubclass(r, mixin)
    ensures forall q :: IsSubclass(c, q) ==> IsSubclass(r, q)
  {
    c.(bases := [mixin] + c.bases, ancestors := c.ancestors + {mixin})
  }

  /** The user model's preparation: look up `timezone_field` (its validator may
      raise), fail with ModelError when no field has that name, add
      `validate_timezone` to that field once, and prepend the user mixin. */
  function PrepareUser(rules: Rules, mixin: string, c: ModelClass): (r: Outcome)
  {
    match GetConfigOf(rules, c, TIMEZONE_FIELD, VNone)
    case Err(e) => Outcome(c, Some(e))
    case Ok(tz) =>
      if !tz.VStr? || GetField(c.fields, tz.s).Err? then Outcome(c, Some(ModelError))
      else Outcome(WithMixin(c.(fields := AddValidatorTo(c.fields, tz.s, VALIDATE_TIMEZONE)), mixin), None)
  }

  /** The names of the model's DateTimeFields as the list value stored for
      "__all__". */
  function DateTimeFieldList(c: ModelClass): (r: Value)
    ensures r.VList? && forall i :: 0 <= i < |r.items| ==> r.items[i].VStr?
    ensures Strs(r.items) == DateTimeFieldNames(c.fields)
  {
    var names := DateTimeFieldNames(c.fields);
    VList(seq(|names|, i requires 0 <= i < |names| => VStr(names[i])))
  }

  /** `if get_config("datetime_fields") == "__all__": set_config(...)` */
  function ExpandAllFields(rules: Rules, c: ModelClass): (r: Result<ModelClass>)
    ensures r.Ok? ==> r.value == c.(meta := r.value.meta)
  {
    match GetConfigOf(rules, c, DATETIME_FIELDS, VNone)
    case Err(e) => Err(e)
    case Ok(v) => if v == VStr("__all__") then SetConfigOn(rules, c, DATETIME_FIELDS, DateTimeFieldList(c)) else Ok(c)
  }

  /** `if not get_config(key): set_config(key, default)` */
  function DefaultTo(rules: Rules, c: ModelClass, key: string, default: Value): (r: Result<ModelClass>)
    ensures r.Ok? ==> r.value == c.(meta := r.value.meta)
  {
    match GetConfigOf(rules, c, key, VNone)
    case Err(e) => Err(e)
    case Ok(v) => if Truthy(v) then Ok(c) else SetConfigOn(rules, c, key, default)
  }

  /** The name given to the generated function: f"get_{field}_{suffix}". */
  function GetterName(field: string, suffix: string): (r: string)
    ensures r == "get_" + AttrName(field, suffix)
  {
    "get_" + field + "_" + suffix
  }

  /** The read-only attribute installed for a datetime field. */
  function FieldAttribute(suffix: string): string -> Value
  {
    f => VFunctionAttribute(GetterName(f, suffix), f)
  }

  /** One loop step of `update_model_attrs`: the field must be a DateTimeField of
      the model (a missing field raises FieldDoesNotExist, another kind raises the
      configuration error), and the attribute wraps the generated function. */
  function FieldAttributeMaker(c: ModelClass, suffix: string, err: Error): string -> Result<Value>
  {
    f => match IsDateTimeField(c, f)
         case Err(e) => Err(e)
         case Ok(isDateTime) => if isDateTime then Ok(FieldAttribute(suffix)(f)) else Err(err)
  }

  /** The suffix as the f-string renders it: a str once validated, "None" when
      unset. */
  function SuffixText(v: Value): string
  {
    if v.VStr? then v.s else "None"
  }

  /** `update_model_attrs(model)`: read `datetime_fields` and `attribute_suffix`,
      then install one attribute per listed field, stopping at the first failure. */
  function UpdateAttrs(rules: Rules, c: ModelClass): (r: Outcome)
    ensures r.cls == c.(attrs := r.cls.attrs)
  {
    match GetConfigOf(rules, c, DATETIME_FIELDS, VNone)
    case Err(e) => Outcome(c, Some(e))
    case Ok(listed) =>
      match GetConfigOf(rules, c, ATTRIBUTE_SUFFIX, VNone)
      case Err(e) => Outcome(c, Some(e))
      case Ok(sfx) =>
        match Iterate(listed)
        case Err(e) => Outcome(c, Some(e))
        case Ok(items) =>
          var suffix := SuffixText(sfx);
          var inst := InstallEntries(c.attrs, items, suffix, FieldAttributeMaker(c, suffix, rules.configError));
          Outcome(c.(attrs := inst.attrs), inst.error)
  }

  /** A regular model's preparation: "__all__" expanded, the suffix and the flag
      defaulted, then the attributes installed. */
  function PrepareRegular(rules: Rules, c: ModelClass): (r: Outcome)
  {
    match ExpandAllFields(rules, c)
    case Err(e) => Outcome(c, Some(e))
    case Ok(c1) =>
      match DefaultTo(rules, c1, ATTRIBUTE_SUFFIX, VStr(DEFAULT_ATTRIBUTE_SUFFIX))
      case Err(e) => Outcome(c1, Some(e))
      case Ok(c2) =>
        match DefaultTo(rules, c2, USE_RELATED_USER_TIMEZONE, VBool(false))
        case Err(e) => Outcome(c2, Some(e))
        case Ok(c3) => UpdateAttrs(rules, c3)
  }

  // ---- properties of the preparation ----

  /** No two fields of the model share a name, as Django enforces. */
  predicate DistinctNames(fields: seq<Field>)
  {
    forall i, j :: 0 <= i < j < |fields| ==> fields[i].name != fields[j].name
  }

  /** With distinct names, looking a field up by its name finds that field. */
  lemma {:induction false} GetFieldFinds(fields: seq<Field>, f: Field)
    requires DistinctNames(fields) && f in fields
    ensures GetField(fields, f.name) == Ok(f)
  {
    if fields[0] != f {
      assert fields[0].name != f.name by {
        var j :| 0 <= j < |fields| && fields[j] == f;
      }
      assert DistinctNames(fields[1..]) by {
        forall i, j | 0 <= i < j < |fields[1..]| ensures fields[1..][i].name != fields[1..][j].name {
          assert fields[1..][i] == fields[i + 1] && fields[1..][j] == fields[j + 1];
        }
      }
      GetFieldFinds(fields[1..], f);
    }
  }

  /** `name` is the name of a DateTimeField of the model. */
  predicate NamesDateTimeField(c: ModelClass, name: string)
  {
    GetField(c.fields, name).Ok? && GetField(c.fields, name).value.kind.DateTimeKind?
  }

  /** Index of the first name that is not a DateTimeField of the model. */
  function FirstNotDateTime(c: ModelClass, names: seq<string>): (k: nat)
    ensures k <= |names|
    ensures forall i :: 0 <= i < k ==> NamesDateTimeField(c, names[i])
    ensures k < |names| ==> !NamesDateTimeField(c, names[k])
  {
    if names == [] then 0
    else if !NamesDateTimeField(c, names[0]) then 0
    else 1 + FirstNotDateTime(c, names[1..])
  }

  /** When the listed fields are strs naming fields of the model, the attributes
      are installed exactly when every one is a DateTimeField; otherwise the first
      one that is not stops the loop with the configuration error. */
  lemma UpdateAttrsInstalls(rules: Rules, c: ModelClass, items: seq<Value>, suffix: string)
    requires GetConfigOf(rules, c, DATETIME_FIELDS, VNone).Ok?
    requires var listed := GetConfigOf(rules, c, DATETIME_FIELDS, VNone).value;
             (listed.VList? || listed.VTuple?) && listed.items == items
    requires GetConfigOf(rules, c, ATTRIBUTE_SUFFIX, VNone) == Ok(VStr(suffix))
    requires forall i :: 0 <= i < |items| ==> items[i].VStr? && GetField(c.fields, items[i].s).Ok?
    ensures UpdateAttrs(rules, c).error.None? <==> forall i :: 0 <= i < |items| ==> NamesDateTimeField(c, items[i].s)
    ensures UpdateAttrs(rules, c).error.Some? ==> UpdateAttrs(rules, c).error.value == rules.configError
    ensures UpdateAttrs(rules, c).error.None? ==>
              UpdateAttrs(rules, c).cls.attrs == Installed(c.attrs, Strs(items), suffix, FieldAttribute(suffix))
  {
    var names := Strs(items);
    var make := FieldAttributeMaker(c, suffix, rules.configError);
    var listed := GetConfigOf(rules, c, DATETIME_FIELDS, VNone).value;
    assert Iterate(listed) == Ok(items);
    assert FirstNonStr(items) == |items|;
    var inst := InstallAll(c.attrs, names, suffix, make);
    assert InstallEntries(c.attrs, items, suffix, make) == inst;
    assert UpdateAttrs(rules, c) == Outcome(c.(attrs := inst.attrs), inst.error);
    var k := FirstNotDateTime(c, names);
    if k == |names| {
      forall f | f in names ensures make(f) == Ok(FieldAttribute(suffix)(f)) {
        var i :| 0 <= i < |names| && names[i] == f;
      }
      InstallAllSucceeds(c.attrs, names, suffix, make, FieldAttribute(suffix));
    } else {
      assert names[k] == items[k].s && GetField(c.fields, names[k]).Ok?;
      assert IsDateTimeField(c, names[k]) == Ok(false);
      assert make(names[k]) == Err(rules.configError);
      InstallAllStopsAtFirstError(c.attrs, names, k, suffix, make, FieldAttribute(suffix));
    }
  }

  /** A user model that names an existing str timezone field is prepared: the
      field carries `validate_timezone`, the mixin heads the bases, the field
      names are unchanged, and preparing again leaves the fields as they are.
      Otherwise the class is left as it was, with the validator's error or
      ModelError. */
  lemma PreparedUserModel(err: Error, mixin: string, c: ModelClass)
    ensures var o := PrepareUser(UserRules(err), mixin, c);
            var tz := MetaGet(c.meta, TIMEZONE_FIELD, VNone);
            (o.error.None? <==> !c.meta.NoMeta? && tz.VStr? && tz.s in AllFieldNames(c.fields))
    ensures var o := PrepareUser(UserRules(err), mixin, c);
            o.error.Some? ==> o.cls == c && o.error.value in {err, ModelError, AttributeError}
    ensures var o := PrepareUser(UserRules(err), mixin, c);
            var tz := MetaGet(c.meta, TIMEZONE_FIELD, VNone);
            o.error.None? ==>
              o.cls.bases == [mixin] + c.bases && o.cls.meta == c.meta
              && AllFieldNames(o.cls.fields) == AllFieldNames(c.fields)
              && (forall f :: f in o.cls.fields && f.name == tz.s ==> VALIDATE_TIMEZONE in f.validators)
              && PrepareUser(UserRules(err), mixin, o.cls).cls.fields == o.cls.fields
  {
    var o := PrepareUser(UserRules(err), mixin, c);
    var tz := MetaGet(c.meta, TIMEZONE_FIELD, VNone);
    if o.error.None? {
      AddValidatorToIdempotent(c.fields, tz.s, VALIDATE_TIMEZONE);
      var once := AddValidatorTo(c.fields, tz.s, VALIDATE_TIMEZONE);
      assert GetField(once, tz.s).Ok?;
    }
  }

  /** The configuration a successful regular preparation leaves: "__all__"
      replaced by the model's DateTimeField names, an empty or unset suffix
      replaced by "utz", a falsy flag replaced by False; everything but `UTZMeta`
      and the class attributes is unchanged. */
  lemma PreparedRegularDefaults(err: Error, withRelatedUser: bool, c: ModelClass)
    requires c.meta.MetaClass?
    ensures var o := PrepareRegular(RegularRules(err, withRelatedUser), c);
            o.error.None? ==> o.cls == c.(meta := o.cls.meta, attrs := o.cls.attrs) && o.cls.meta.MetaClass?
    ensures var o := PrepareRegular(RegularRules(err, withRelatedUser), c);
            var listed := MetaGet(c.meta, DATETIME_FIELDS, VNone);
            o.error.None? ==>
              (DATETIME_FIELDS in o.cls.meta.configs
               && o.cls.meta.configs[DATETIME_FIELDS] == (if listed == VStr("__all__") then DateTimeFieldList(c) else listed))
    ensures var o := PrepareRegular(RegularRules(err, withRelatedUser), c);
            var suffix := MetaGet(c.meta, ATTRIBUTE_SUFFIX, VNone);
            o.error.None? ==>
              (ATTRIBUTE_SUFFIX in o.cls.meta.configs
               && o.cls.meta.configs[ATTRIBUTE_SUFFIX] == (if Truthy(suffix) then suffix else VStr(DEFAULT_ATTRIBUTE_SUFFIX)))
    ensures var o := PrepareRegular(RegularRules(err, withRelatedUser), c);
            var flag := MetaGet(c.meta, USE_RELATED_USER_TIMEZONE, VNone);
            o.error.None? ==>
              (USE_RELATED_USER_TIMEZONE in o.cls.meta.configs
               && o.cls.meta.configs[USE_RELATED_USER_TIMEZONE] == (if Truthy(flag) then flag else VBool(false)))
  {
    var rules := RegularRules(err, withRelatedUser);
    var o := PrepareRegular(rules, c);
    if o.error.None? {
      ExpandAllFieldsResult(rules, c);
      var c1 := ExpandAllFields(rules, c).value;
      DefaultToResult(rules, c1, ATTRIBUTE_SUFFIX, VStr(DEFAULT_ATTRIBUTE_SUFFIX));
      var c2 := DefaultTo(rules, c1, ATTRIBUTE_SUFFIX, VStr(DEFAULT_ATTRIBUTE_SUFFIX)).value;
      DefaultToResult(rules, c2, USE_RELATED_USER_TIMEZONE, VBool(false));
      var c3 := DefaultTo(rules, c2, USE_RELATED_USER_TIMEZONE, VBool(false)).value;
      assert o == UpdateAttrs(rules, c3);
      assert MetaGet(c3.meta, DATETIME_FIELDS, VNone) != VNone;
    }
  }

  /** What the "__all__" step leaves in `UTZMeta`. */
  lemma ExpandAllFieldsResult(rules: Rules, c: ModelClass)
    requires c.meta.MetaClass? && ExpandAllFields(rules, c).Ok?
    ensures var c1 := ExpandAllFields(rules, c).value;
            var listed := MetaGet(c.meta, DATETIME_FIELDS, VNone);
            c1.meta.MetaClass?
            && MetaGet(c1.meta, DATETIME_FIELDS, VNone) == (if listed == VStr("__all__") then DateTimeFieldList(c) else listed)
            && (listed != VNone ==> DATETIME_FIELDS in c1.meta.configs)
            && forall k :: k != DATETIME_FIELDS ==> MetaGet(c1.meta, k, VNone) == MetaGet(c.meta, k, VNone)
  {
  }

  /** What a defaulting step leaves in `UTZMeta`. */
  lemma DefaultToResult(rules: Rules, c: ModelClass, key: string, default: Value)
    requires c.meta.MetaClass? && DefaultTo(rules, c, key, default).Ok?
    requires Truthy(default) || default != VNone
    ensures var c1 := DefaultTo(rules, c, key, default).value;
            var old_ := MetaGet(c.meta, key, VNone);
            c1.meta.MetaClass? && key in c1.meta.configs
            && c1.meta.configs[key] == (if Truthy(old_) then old_ else default)
            && forall k :: k != key ==> MetaGet(c1.meta, k, VNone) == MetaGet(c.meta, k, VNone)
  {
  }

  /** With `datetime_fields = "__all__"` and a well-typed suffix and flag, the
      preparation of a model always succeeds and installs one attribute for
      every DateTimeField of the model. */
  lemma AllFieldsAreInstalled(err: Error, withRelatedUser: bool, c: ModelClass)
    requires c.meta.MetaClass? && DistinctNames(c.fields)
    requires MetaGet(c.meta, DATETIME_FIELDS, VNone) == VStr("__all__")
    requires MetaGet(c.meta, ATTRIBUTE_SUFFIX, VNone).VNone? || MetaGet(c.meta, ATTRIBUTE_SUFFIX, VNone).VStr?
    requires MetaGet(c.meta, USE_RELATED_USER_TIMEZONE, VNone).VNone? || MetaGet(c.meta, USE_RELATED_USER_TIMEZONE, VNone).VBool?
    ensures var o := PrepareRegular(RegularRules(err, withRelatedUser), c);
            var sfx := MetaGet(c.meta, ATTRIBUTE_SUFFIX, VNone);
            var suffix := if Truthy(sfx) then sfx.s else DEFAULT_ATTRIBUTE_SUFFIX;
            o.error.None? && o.cls.attrs == Installed(c.attrs, DateTimeFieldNames(c.fields), suffix, FieldAttribute(suffix))
  {
    var rules := RegularRules(err, withRelatedUser);
    var sfx := MetaGet(c.meta, ATTRIBUTE_SUFFIX, VNone);
    var suffix := if Truthy(sfx) then sfx.s else DEFAULT_ATTRIBUTE_SUFFIX;
    var c3 := AllFieldsDefaults(err, withRelatedUser, c);
    var items := DateTimeFieldList(c).items;
    AllFieldsNameDateTimeFields(c);
    UpdateAttrsInstalls(rules, c3, items, suffix);
  }

  /** The class that reaches `update_model_attrs` when `datetime_fields` is "__all__". */
  lemma AllFieldsDefaults(err: Error, withRelatedUser: bool, c: ModelClass) returns (c3: ModelClass)
    requires c.meta.MetaClass?
    requires MetaGet(c.meta, DATETIME_FIELDS, VNone) == VStr("__all__")
    requires MetaGet(c.meta, ATTRIBUTE_SUFFIX, VNone).VNone? || MetaGet(c.meta, ATTRIBUTE_SUFFIX, VNone).VStr?
    requires MetaGet(c.meta, USE_RELATED_USER_TIMEZONE, VNone).VNone? || MetaGet(c.meta, USE_RELATED_USER_TIMEZONE, VNone).VBool?
    ensures PrepareRegular(RegularRules(err, withRelatedUser), c) == UpdateAttrs(RegularRules(err, withRelatedUser), c3)
    ensures c3.fields == c.fields && c3.attrs == c.attrs
    ensures GetConfigOf(RegularRules(err, withRelatedUser), c3, DATETIME_FIELDS, VNone) == Ok(DateTimeFieldList(c))
    ensures var sfx := MetaGet(c.meta, ATTRIBUTE_SUFFIX, VNone);
            GetConfigOf(RegularRules(err, withRelatedUser), c3, ATTRIBUTE_SUFFIX, VNone)
            == Ok(VStr(if Truthy(sfx) then sfx.s else DEFAULT_ATTRIBUTE_SUFFIX))
  {
    var rules := RegularRules(err, withRelatedUser);
    var sfx := MetaGet(c.meta, ATTRIBUTE_SUFFIX, VNone);
    var c1 := c.(meta := MetaClass(c.meta.configs[DATETIME_FIELDS := DateTimeFieldList(c)]));
    assert ExpandAllFields(rules, c) == Ok(c1);
    assert MetaGet(c1.meta, ATTRIBUTE_SUFFIX, VNone) == sfx;
    var c2 := if Truthy(sfx) then c1 else c1.(meta := MetaClass(c1.meta.configs[ATTRIBUTE_SUFFIX := VStr(DEFAULT_ATTRIBUTE_SUFFIX)]));
    DefaultToStep(rules, c1, ATTRIBUTE_SUFFIX, VStr(DEFAULT_ATTRIBUTE_SUFFIX));
    var flag := MetaGet(c2.meta, USE_RELATED_USER_TIMEZONE, VNone);
    assert flag == MetaGet(c.meta, USE_RELATED_USER_TIMEZONE, VNone);
    c3 := if Truthy(flag) then c2 else c2.(meta := MetaClass(c2.meta.configs[USE_RELATED_USER_TIMEZONE := VBool(false)]));
    DefaultToStep(rules, c2, USE_RELATED_USER_TIMEZONE, VBool(false));
    assert MetaGet(c3.meta, DATETIME_FIELDS, VNone) == DateTimeFieldList(c);
    assert MetaGet(c3.meta, ATTRIBUTE_SUFFIX, VNone) == VStr(if Truthy(sfx) then sfx.s else DEFAULT_ATTRIBUTE_SUFFIX);
  }

  /** A defaulting step whose old and new values both pass validation. */
  lemma DefaultToStep(rules: Rules, c: ModelClass, key: string, default: Value)
    requires c.meta.MetaClass? && Admits(rules.allowed, key)
    requires ValidateConfig(rules.validators, key, MetaGet(c.meta, key, VNone)).None?
    requires ValidateConfig(rules.validators, key, default).None?
    ensures DefaultTo(rules, c, key, default) ==
              Ok(if Truthy(MetaGet(c.meta, key, VNone)) then c else c.(meta := MetaClass(c.meta.configs[key := default])))
  {
  }

  /** Every name "__all__" expands to is a DateTimeField of the model. */
  lemma AllFieldsNameDateTimeFields(c: ModelClass)
    requires DistinctNames(c.fields)
    ensures var items := DateTimeFieldList(c).items;
            forall i :: 0 <= i < |items| ==> items[i].VStr? && NamesDateTimeField(c, items[i].s)
  {
    var items := DateTimeFieldList(c).items;
    var names := DateTimeFieldNames(c.fields);
    forall i | 0 <= i < |items| ensures items[i].VStr? && NamesDateTimeField(c, items[i].s) {
      assert items[i].s == Strs(items)[i] == names[i] && names[i] in names;
      var f :| f in c.fields && f.kind.DateTimeKind? && f.name == names[i];
      GetFieldFinds(c.fields, f);
    }
  }

  /** A regular preparation writes only `datetime_fields`, `attribute_suffix` and
      `use_related_user_timezone` in `UTZMeta`, whether it succeeds or not. */
  lemma PrepareRegularTouchesOnlyItsConfigs(rules: Rules, c: ModelClass, key: string)
    requires c.meta.MetaClass?
    requires key != DATETIME_FIELDS && key != ATTRIBUTE_SUFFIX && key != USE_RELATED_USER_TIMEZONE
    ensures PrepareRegular(rules, c).cls.meta.MetaClass?
    ensures MetaGet(PrepareRegular(rules, c).cls.meta, key, VNone) == MetaGet(c.meta, key, VNone)
  {
    var e1 := ExpandAllFields(rules, c);
    if e1.Ok? {
      var c1 := e1.value;
      assert c1.meta.MetaClass? && MetaGet(c1.meta, key, VNone) == MetaGet(c.meta, key, VNone);
      var e2 := DefaultTo(rules, c1, ATTRIBUTE_SUFFIX, VStr(DEFAULT_ATTRIBUTE_SUFFIX));
      if e2.Ok? {
        var c2 := e2.value;
        assert c2.meta.MetaClass? && MetaGet(c2.meta, key, VNone) == MetaGet(c.meta, key, VNone);
        var e3 := DefaultTo(rules, c2, USE_RELATED_USER_TIMEZONE, VBool(false));
        if e3.Ok? {
          assert e3.value.meta.MetaClass? && MetaGet(e3.value.meta, key, VNone) == MetaGet(c.meta, key, VNone);
        }
      }
    }
  }

  /** A regular preparation changes only `UTZMeta` and the class attributes. */
  lemma PrepareRegularKeepsClass(rules: Rules, c: ModelClass)
    ensures PrepareRegular(rules, c).cls == c.(meta := PrepareRegular(rules, c).cls.meta,
                                               attrs := PrepareRegular(rules, c).cls.attrs)
  {
  }
}
