/** The class-based model decorators (django_utz/decorators/models/bases.py,
    django_utz/decorators/models/decorators.py) and `transform_utz_decorator`
    (django_utz/decorators/utils.py), which turns one into a function-style
    decorator. A decorator object holds the model class it decorates and updates
    it in place: its `UTZMeta` through `set_config`, its fields, bases and
    attributes through `prepare_model`. */
module ModelDecorators {
  import opened Common
  import opened Schema
  import opened ConfigStore
  import opened GeneratedAttrs
  import opened ModelPreparation
  import ProjectUser

  /** The two concrete decorator classes: UserModelDecorator and RegularModelDecorator. */
  datatype DecoratorKind = UserModelKind | RegularModelKind

  /** The mixin UserModelDecorator prepends to the user model's bases. */
  const USER_MIXIN := "django_utz.decorators.models.decorators.UserModelUTZMixin"

  /** Each class's `all_configs`, `required_configs` and `validate_<attr>` methods;
      both raise ModelConfigurationError, and RegularModelDecorator has no
      `validate_related_user` (its `check_model` tests that name instead). */
  function RulesOf(kind: DecoratorKind): (r: Rules)
    ensures r.configError == ModelConfigurationError
    ensures "_decorated" !in r.validators
  {
    match kind
    case UserModelKind => UserRules(ModelConfigurationError)
    case RegularModelKind => RegularRules(ModelConfigurationError, false)
  }

  /** `check_model` of each class. The user model decorator first requires the
      project's user model, then runs the base checks; the regular one runs the
      base checks, then rejects a truthy `related_user` that is not a str. */
  function CheckModel(kind: DecoratorKind, authUserModel: string, c: ModelClass): (r: Result<ModelClass>)
    ensures r.Ok? ==> r.value == c && c.meta.MetaClass?
    ensures r.Ok? ==> CheckModelClass(c, Some(RulesOf(kind).required), ModelConfigurationError).Ok?
    ensures kind.UserModelKind? ==>
              (r.Ok? <==> ProjectUser.IsUserModel(authUserModel, c)
                          && CheckModelClass(c, Some([TIMEZONE_FIELD]), ModelConfigurationError).Ok?)
    ensures kind.UserModelKind? && !ProjectUser.IsUserModel(authUserModel, c) ==> r == Err(ModelError)
    ensures kind.RegularModelKind? ==>
              (r.Ok? <==> CheckModelClass(c, Some([DATETIME_FIELDS]), ModelConfigurationError).Ok?
                          && (!Truthy(MetaGet(c.meta, RELATED_USER, VNone)) || MetaGet(c.meta, RELATED_USER, VNone).VStr?))
  {
    match kind
    case UserModelKind =>
      if !ProjectUser.IsUserModel(authUserModel, c) then Err(ModelError)
      else CheckModelClass(c, Some([TIMEZONE_FIELD]), ModelConfigurationError)
    case RegularModelKind =>
      match CheckModelClass(c, Some([DATETIME_FIELDS]), ModelConfigurationError)
      case Err(e) => Err(e)
      case Ok(_) =>
        var related := MetaGet(c.meta, RELATED_USER, VNone);
        if Truthy(related) && !related.VStr? then Err(ModelConfigurationError) else Ok(c)
  }

  /** `prepare_model` of each class. */
  function Prepare(kind: DecoratorKind, c: ModelClass): Outcome
  {
    match kind
    case UserModelKind => PrepareUser(RulesOf(kind), USER_MIXIN, c)
    case RegularModelKind => PrepareRegular(RulesOf(kind), c)
  }

  /** `__call__`: prepare, then reject a result that is not a model class. */
  function CallOutcome(o: Outcome): Outcome
  {
    if o.error.None? && !IsModel(o.cls) then Outcome(o.cls, Some(TypeError)) else o
  }

  /** `transform_utz_decorator(D)(c)`, that is `D(c)()`: the class as the decorator
      leaves it and the exception raised, if any. */
  function Decorated(kind: DecoratorKind, authUserModel: string, c: ModelClass): Outcome
  {
    match CheckModel(kind, authUserModel, c)
    case Err(e) => Outcome(c, Some(e))
    case Ok(_) => CallOutcome(Prepare(kind, MarkDecorated(c)))
  }

  class ModelDecorator {
    const kind: DecoratorKind
    var model: ModelClass

    /** The part of `__init__` after `check_model`: the model is stored. */
    constructor Init(kind: DecoratorKind, m: ModelClass)
      ensures this.kind == kind && model == m
    {
      this.kind := kind;
      model := m;
    }

    /** `get_config(attr, default)`: the stored value or the default, validated by
        `validate_<attr>` when it is not None. */
    method GetConfig(attr: string, default: Value) returns (r: Result<Value>)
      ensures r == GetConfigOf(RulesOf(kind), model, attr, default)
    {
      if model.meta.NoMeta? {
        return Err(AttributeError);
      }
      var value := MetaGet(model.meta, attr, default);
      var validators := RulesOf(kind).validators;
      if value != VNone && attr in validators && !Passes(validators[attr].check, value) {
        return Err(validators[attr].error);
      }
      return Ok(value);
    }

    /** `set_config(attr, value)`: rejects names outside `all_configs` other than
        `_decorated`, validates a non-None value, then writes it. */
    method SetConfig(attr: string, value: Value) returns (e: Option<Error>)
      modifies this
      ensures var r := SetConfigOn(RulesOf(kind), old(model), attr, value);
              (e.None? <==> r.Ok?) && model == (if r.Ok? then r.value else old(model))
              && (e.Some? ==> e.value == r.error)
    {
      var rules := RulesOf(kind);
      if attr != "_decorated" && attr !in rules.allowed {
        return Some(rules.configError);
      }
      if value != VNone && attr in rules.validators && !Passes(rules.validators[attr].check, value) {
        return Some(rules.validators[attr].error);
      }
      if !model.meta.MetaClass? {
        return Some(AttributeError);
      }
      model := model.(meta := MetaClass(model.meta.configs[attr := value]));
      return None;
    }

    /** UserModelDecorator.prepare_model */
    method PrepareUserModel() returns (e: Option<Error>)
      requires kind.UserModelKind?
      modifies this
      ensures Outcome(model, e) == PrepareUser(RulesOf(kind), USER_MIXIN, old(model))
    {
      var tz := GetConfig(TIMEZONE_FIELD, VNone);
      if tz.Err? {
        return Some(tz.error);
      }
      if !tz.value.VStr? || GetField(model.fields, tz.value.s).Err? {
        return Some(ModelError);
      }
      model := model.(fields := AddValidatorTo(model.fields, tz.value.s, VALIDATE_TIMEZONE));
      model := model.(bases := [USER_MIXIN] + model.bases, ancestors := model.ancestors + {USER_MIXIN});
      return None;
    }

    /** RegularModelDecorator.update_model_attrs */
    method UpdateModelAttrs() returns (e: Option<Error>)
      requires kind.RegularModelKind?
      modifies this
      ensures Outcome(model, e) == UpdateAttrs(RulesOf(kind), old(model))
    {
      var listed := GetConfig(DATETIME_FIELDS, VNone);
      if listed.Err? {
        return Some(listed.error);
      }
      var sfx := GetConfig(ATTRIBUTE_SUFFIX, VNone);
      if sfx.Err? {
        return Some(sfx.error);
      }
      var items := Iterate(listed.value);
      if items.Err? {
        return Some(items.error);
      }
      var suffix := SuffixText(sfx.value);
      var inst := SetAttrsForEntries(model.attrs, items.value, suffix,
                                     FieldAttributeMaker(model, suffix, ModelConfigurationError));
      model := model.(attrs := inst.attrs);
      return inst.error;
    }

    /** RegularModelDecorator.prepare_model */
    method PrepareRegularModel() returns (e: Option<Error>)
      requires kind.RegularModelKind?
      modifies this
      ensures Outcome(model, e) == PrepareRegular(RulesOf(kind), old(model))
    {
      var rules := RulesOf(kind);
      var listed := GetConfig(DATETIME_FIELDS, VNone);
      if listed.Err? {
        return Some(listed.error);
      }
      if listed.value == VStr("__all__") {
        e := SetConfig(DATETIME_FIELDS, DateTimeFieldList(model));
        if e.Some? {
          return;
        }
      }
      ghost var c1 := model;
      assert ExpandAllFields(rules, old(model)) == Ok(c1);
      var sfx := GetConfig(ATTRIBUTE_SUFFIX, VNone);
      if sfx.Err? {
        return Some(sfx.error);
      }
      if !Truthy(sfx.value) {
        e := SetConfig(ATTRIBUTE_SUFFIX, VStr(DEFAULT_ATTRIBUTE_SUFFIX));
        if e.Some? {
          return;
        }
      }
      ghost var c2 := model;
      assert DefaultTo(rules, c1, ATTRIBUTE_SUFFIX, VStr(DEFAULT_ATTRIBUTE_SUFFIX)) == Ok(c2);
      var flag := GetConfig(USE_RELATED_USER_TIMEZONE, VNone);
      if flag.Err? {
        return Some(flag.error);
      }
      if !Truthy(flag.value) {
        e := SetConfig(USE_RELATED_USER_TIMEZONE, VBool(false));
        if e.Some? {
          return;
        }
      }
      assert DefaultTo(rules, c2, USE_RELATED_USER_TIMEZONE, VBool(false)) == Ok(model);
      e := UpdateModelAttrs();
    }

    /** `__call__`: `prepare_model`, then the model-class check on its result. */
    method Call() returns (r: Result<ModelClass>)
      modifies this
      ensures var o := CallOutcome(Prepare(kind, old(model)));
              model == o.cls && r == (if o.error.Some? then Err(o.error.value) else Ok(o.cls))
    {
      var e;
      if kind.UserModelKind? {
        e := PrepareUserModel();
      } else {
        e := PrepareRegularModel();
      }
      if e.Some? {
        return Err(e.value);
      }
      if !IsModel(model) {
        return Err(TypeError);
      }
      return Ok(model);
    }
  }

  /** Construction: `check_model`, then the model is stored, then the base
      initialiser sets `_decorated`. */
  method Create(kind: DecoratorKind, authUserModel: string, c: ModelClass) returns (r: Result<ModelDecorator>)
    ensures r.Err? <==> CheckModel(kind, authUserModel, c).Err?
    ensures r.Err? ==> r.error == CheckModel(kind, authUserModel, c).error
    ensures r.Ok? ==> fresh(r.value) && r.value.kind == kind && r.value.model == MarkDecorated(c)
  {
    var checked := CheckModel(kind, authUserModel, c);
    if checked.Err? {
      return Err(checked.error);
    }
    var d := new ModelDecorator.Init(kind, checked.value);
    var e := d.SetConfig("_decorated", VBool(true));
    assert e.None?;
    return Ok(d);
  }

  /** `transform_utz_decorator(D)(c)`: construct the decorator, then call it. */
  method Decorate(kind: DecoratorKind, authUserModel: string, c: ModelClass) returns (o: Outcome)
    ensures o == Decorated(kind, authUserModel, c)
  {
    var d := Create(kind, authUserModel, c);
    if d.Err? {
      return Outcome(c, Some(d.error));
    }
    var r := d.value.Call();
    o := Outcome(d.value.model, if r.Err? then Some(r.error) else None);
  }

  /** Preparation keeps a model class a model class, so the check in `__call__`
      never fires on a class that passed `check_model`. */
  lemma CallNeverRejectsCheckedClass(kind: DecoratorKind, authUserModel: string, c: ModelClass)
    requires CheckModel(kind, authUserModel, c).Ok?
    ensures Decorated(kind, authUserModel, c) == Prepare(kind, MarkDecorated(c))
  {
    var m := MarkDecorated(c);
    assert IsModel(m);
    var o := Prepare(kind, m);
    if kind.RegularModelKind? {
      PrepareRegularKeepsClass(RulesOf(kind), m);
    }
    assert IsModel(o.cls);
  }

  /** The class-based decorators mark the model decorated when they are
      constructed, before `prepare_model` runs: a model that passes the checks but
      fails preparation is still left with `_decorated` set. */
  lemma MarkedEvenWhenPreparationFails(kind: DecoratorKind, authUserModel: string, c: ModelClass)
    requires CheckModel(kind, authUserModel, c).Ok?
    ensures MetaIsDecorated(Decorated(kind, authUserModel, c).cls.meta)
  {
    CallNeverRejectsCheckedClass(kind, authUserModel, c);
    if kind.RegularModelKind? {
      PrepareRegularTouchesOnlyItsConfigs(RulesOf(kind), MarkDecorated(c), "_decorated");
    }
  }

  /** An example model: `Article`, whose `UTZMeta.datetime_fields` lists its
      `title` field, which is not a DateTimeField. */
  function Article(): ModelClass
  {
    ModelClass("blog.models", "Article", {MODEL_BASE}, [MODEL_BASE],
               [Field("title", Plain, None, [])],
               MetaClass(map[DATETIME_FIELDS := VList([VStr("title")])]), map[])
  }

  /** Preparing `Article` stops at its `title` entry. */
  lemma ArticlePreparationFails()
    ensures Prepare(RegularModelKind, MarkDecorated(Article())).error == Some(ModelConfigurationError)
  {
    var m := MarkDecorated(Article());
    var rules := RulesOf(RegularModelKind);
    assert ExpandAllFields(rules, m) == Ok(m);
    DefaultToResult(rules, m, ATTRIBUTE_SUFFIX, VStr(DEFAULT_ATTRIBUTE_SUFFIX));
    var c2 := DefaultTo(rules, m, ATTRIBUTE_SUFFIX, VStr(DEFAULT_ATTRIBUTE_SUFFIX)).value;
    DefaultToResult(rules, c2, USE_RELATED_USER_TIMEZONE, VBool(false));
    var c3 := DefaultTo(rules, c2, USE_RELATED_USER_TIMEZONE, VBool(false)).value;
    assert c3.fields == Article().fields;
    ArticleUpdateFails(rules, c3);
  }

  /** `update_model_attrs` on a class with Article's fields, `datetime_fields =
      ["title"]` and the suffix "utz" stops at `title`. */
  lemma ArticleUpdateFails(rules: Rules, c3: ModelClass)
    requires rules == RulesOf(RegularModelKind) && c3.fields == Article().fields
    requires c3.meta.MetaClass?
    requires MetaGet(c3.meta, DATETIME_FIELDS, VNone) == VList([VStr("title")])
    requires MetaGet(c3.meta, ATTRIBUTE_SUFFIX, VNone) == VStr("utz")
    ensures UpdateAttrs(rules, c3).error == Some(ModelConfigurationError)
  {
    assert GetField(c3.fields, "title") == Ok(Field("title", Plain, None, []));
    UpdateAttrsInstalls(rules, c3, [VStr("title")], "utz");
    assert !NamesDateTimeField(c3, "title");
  }

  /** Example: a regular model listing a field that is not a DateTimeField passes
      the checks, is marked decorated, and then fails with
      ModelConfigurationError. */
  lemma NonDateTimeFieldRejected()
    ensures var o := Decorated(RegularModelKind, "auth.User", Article());
            o.error == Some(ModelConfigurationError) && MetaIsDecorated(o.cls.meta)
  {
    assert CheckModel(RegularModelKind, "auth.User", Article()).Ok?;
    MarkedEvenWhenPreparationFails(RegularModelKind, "auth.User", Article());
    ArticlePreparationFails();
  }
}
