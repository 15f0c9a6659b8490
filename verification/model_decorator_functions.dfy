/** The function-style model decorators `usermodel` and `model`
    (django_utz/decorators/models.py). They share the preparation of the
    class-based decorators but raise ConfigurationError, also validate
    `related_user`, check the user model's configuration before its identity, and
    mark the class `_decorated` only once checks and preparation have succeeded. */
module ModelDecoratorFunctions {
  import opened Common
  import opened Schema
  import opened GeneratedAttrs
  import opened ModelPreparation
  import ProjectUser
  import ModelDecorators

  /** The mixin `prepare_user_model_class` prepends to the user model's bases. */
  const USER_MIXIN := "django_utz.mixins.UserModelUTZMixin"

  /** `get_user_model_config` / `set_user_model_config` with their validator. */
  function UserModelRules(): Rules
  {
    UserRules(ConfigurationError)
  }

  /** `get_model_config` / `set_model_config` with the four validators. */
  function ModelRules(): Rules
  {
    RegularRules(ConfigurationError, true)
  }

  /** `check_user_model`: `check_model` with `timezone_field` required, then the
      identity of the project's user model. */
  function CheckUserModel(authUserModel: string, c: ModelClass): (r: Result<ModelClass>)
    ensures r.Ok? <==> CheckModelClass(c, Some([TIMEZONE_FIELD]), ConfigurationError).Ok?
                       && ProjectUser.IsUserModel(authUserModel, c)
    ensures r.Ok? ==> r.value == c
    ensures CheckModelClass(c, Some([TIMEZONE_FIELD]), ConfigurationError).Err? ==>
              r == CheckModelClass(c, Some([TIMEZONE_FIELD]), ConfigurationError)
    ensures CheckModelClass(c, Some([TIMEZONE_FIELD]), ConfigurationError).Ok? && r.Err? ==> r.error == ModelError
  {
    match CheckModelClass(c, Some([TIMEZONE_FIELD]), ConfigurationError)
    case Err(e) => Err(e)
    case Ok(_) => if ProjectUser.IsUserModel(authUserModel, c) then Ok(c) else Err(ModelError)
  }

  /** The two generations disagree on which error comes first: a model class
      without `UTZMeta` that is not the project's user model is rejected by
      `check_user_model` with AttributeError, and by the class-based user model
      decorator with ModelError. */
  lemma CheckOrderDiffersFromClassBased(authUserModel: string, c: ModelClass)
    requires IsModel(c) && c.meta.NoMeta? && !ProjectUser.IsUserModel(authUserModel, c)
    ensures CheckUserModel(authUserModel, c) == Err(AttributeError)
    ensures ModelDecorators.CheckModel(ModelDecorators.UserModelKind, authUserModel, c) == Err(ModelError)
  {
  }

  /** `prepare_user_model_class`: validator on the timezone field, then the mixin
      prepended to the bases. */
  method PrepareUserModelClass(c: ModelClass) returns (o: Outcome)
    ensures o == PrepareUser(UserModelRules(), USER_MIXIN, c)
  {
    var tz := GetConfigOf(UserModelRules(), c, TIMEZONE_FIELD, VNone);
    if tz.Err? {
      return Outcome(c, Some(tz.error));
    }
    if !tz.value.VStr? || GetField(c.fields, tz.value.s).Err? {
      return Outcome(c, Some(ModelError));
    }
    var m := c.(fields := AddValidatorTo(c.fields, tz.value.s, VALIDATE_TIMEZONE));
    m := m.(bases := [USER_MIXIN] + m.bases, ancestors := m.ancestors + {USER_MIXIN});
    return Outcome(m, None);
  }

  /** `update_model_attrs`: one read-only attribute per listed field. */
  method UpdateModelAttrs(c: ModelClass) returns (o: Outcome)
    ensures o == UpdateAttrs(ModelRules(), c)
  {
    var listed := GetConfigOf(ModelRules(), c, DATETIME_FIELDS, VNone);
    if listed.Err? {
      return Outcome(c, Some(listed.error));
    }
    var sfx := GetConfigOf(ModelRules(), c, ATTRIBUTE_SUFFIX, VNone);
    if sfx.Err? {
      return Outcome(c, Some(sfx.error));
    }
    var items := Iterate(listed.value);
    if items.Err? {
      return Outcome(c, Some(items.error));
    }
    var suffix := SuffixText(sfx.value);
    var inst := SetAttrsForEntries(c.attrs, items.value, suffix, FieldAttributeMaker(c, suffix, ConfigurationError));
    return Outcome(c.(attrs := inst.attrs), inst.error);
  }

  /** `prepare_model`: "__all__" expanded, the suffix and the flag defaulted, each
      written through the setter, then `update_model_attrs`. */
  method PrepareModel(c: ModelClass) returns (o: Outcome)
    ensures o == PrepareRegular(ModelRules(), c)
  {
    var rules := ModelRules();
    var m := c;
    var listed := GetConfigOf(rules, m, DATETIME_FIELDS, VNone);
    if listed.Err? {
      return Outcome(m, Some(listed.error));
    }
    if listed.value == VStr("__all__") {
      var s := SetConfigOn(rules, m, DATETIME_FIELDS, DateTimeFieldList(m));
      if s.Err? {
        return Outcome(m, Some(s.error));
      }
      m := s.value;
    }
    assert ExpandAllFields(rules, c) == Ok(m);
    ghost var c1 := m;
    var sfx := GetConfigOf(rules, m, ATTRIBUTE_SUFFIX, VNone);
    if sfx.Err? {
      return Outcome(m, Some(sfx.error));
    }
    if !Truthy(sfx.value) {
      var s := SetConfigOn(rules, m, ATTRIBUTE_SUFFIX, VStr(DEFAULT_ATTRIBUTE_SUFFIX));
      if s.Err? {
        return Outcome(m, Some(s.error));
      }
      m := s.value;
    }
    assert DefaultTo(rules, c1, ATTRIBUTE_SUFFIX, VStr(DEFAULT_ATTRIBUTE_SUFFIX)) == Ok(m);
    ghost var c2 := m;
    var flag := GetConfigOf(rules, m, USE_RELATED_USER_TIMEZONE, VNone);
    if flag.Err? {
      return Outcome(m, Some(flag.error));
    }
    if !Truthy(flag.value) {
      var s := SetConfigOn(rules, m, USE_RELATED_USER_TIMEZONE, VBool(false));
      if s.Err? {
        return Outcome(m, Some(s.error));
      }
      m := s.value;
    }
    assert DefaultTo(rules, c2, USE_RELATED_USER_TIMEZONE, VBool(false)) == Ok(m);
    o := UpdateModelAttrs(m);
  }

  /** After a successful preparation, `UTZMeta._decorated = True`. */
  function MarkOnSuccess(o: Outcome): Outcome
  {
    if o.error.None? then Outcome(MarkDecorated(o.cls), None) else o
  }

  /** `usermodel(user_model)`: the class as left and the exception raised, if any. */
  function UserModelDecorated(authUserModel: string, c: ModelClass): Outcome
  {
    match CheckUserModel(authUserModel, c)
    case Err(e) => Outcome(c, Some(e))
    case Ok(_) => MarkOnSuccess(PrepareUser(UserModelRules(), USER_MIXIN, c))
  }

  /** `model(model)`: the class as left and the exception raised, if any. */
  function ModelDecorated(c: ModelClass): Outcome
  {
    match CheckModelClass(c, Some([DATETIME_FIELDS]), ConfigurationError)
    case Err(e) => Outcome(c, Some(e))
    case Ok(_) => MarkOnSuccess(PrepareRegular(ModelRules(), c))
  }

  method UserModel(authUserModel: string, c: ModelClass) returns (o: Outcome)
    ensures o == UserModelDecorated(authUserModel, c)
  {
    var checked := CheckUserModel(authUserModel, c);
    if checked.Err? {
      return Outcome(c, Some(checked.error));
    }
    o := PrepareUserModelClass(c);
    if o.error.None? {
      o := Outcome(MarkDecorated(o.cls), None);
    }
  }

  method Model(c: ModelClass) returns (o: Outcome)
    ensures o == ModelDecorated(c)
  {
    var checked := CheckModelClass(c, Some([DATETIME_FIELDS]), ConfigurationError);
    if checked.Err? {
      return Outcome(c, Some(checked.error));
    }
    o := PrepareModel(c);
    if o.error.None? {
      o := Outcome(MarkDecorated(o.cls), None);
    }
  }

  /** `usermodel` marks the class exactly when it succeeds; a failed decoration
      leaves `_decorated` as it found it. */
  lemma UserModelMarkedOnlyOnSuccess(authUserModel: string, c: ModelClass)
    ensures var o := UserModelDecorated(authUserModel, c);
            o.error.None? ==> MetaIsDecorated(o.cls.meta)
    ensures var o := UserModelDecorated(authUserModel, c);
            o.error.Some? ==> o.cls.meta == c.meta
    ensures var o := UserModelDecorated(authUserModel, c);
            o.error.None? <==> CheckUserModel(authUserModel, c).Ok?
                               && PrepareUser(UserModelRules(), USER_MIXIN, c).error.None?
  {
  }

  /** `model` marks the class exactly when it succeeds; a failed decoration
      leaves `_decorated` as it found it, unlike the class-based decorators. */
  lemma ModelMarkedOnlyOnSuccess(c: ModelClass)
    ensures var o := ModelDecorated(c);
            o.error.None? ==> MetaIsDecorated(o.cls.meta)
    ensures var o := ModelDecorated(c);
            o.error.Some? && c.meta.MetaClass? ==>
              o.cls.meta.MetaClass? && MetaGet(o.cls.meta, "_decorated", VNone) == MetaGet(c.meta, "_decorated", VNone)
    ensures var o := ModelDecorated(c);
            o.error.None? <==> CheckModelClass(c, Some([DATETIME_FIELDS]), ConfigurationError).Ok?
                               && PrepareRegular(ModelRules(), c).error.None?
  {
    if c.meta.MetaClass? {
      PrepareRegularTouchesOnlyItsConfigs(ModelRules(), c, "_decorated");
    }
  }

  /** `model` never touches the fields, bases or name of the class: only its
      `UTZMeta` and its attributes. */
  lemma ModelKeepsClass(c: ModelClass)
    ensures var o := ModelDecorated(c);
            o.cls == c.(meta := o.cls.meta, attrs := o.cls.attrs)
  {
    PrepareRegularKeepsClass(ModelRules(), c);
  }
}
