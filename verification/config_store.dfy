/** The configuration kept on a decorated class's `UTZMeta` (django_utz/base.py): a
    getter that falls back to a default and validates what it reads, a setter that
    admits only known names (and always `_decorated`) and validates before it
    writes, and a registry of validators keyed by configuration name. */
module ConfigStore {
  import opened Common
  import opened Schema
  import Strings

  /** What a configuration validator checks. `MustBeFormat` stands for "a str that
      `strftime` accepts"; the accepted formats are a parameter. */
  datatype Check = MustBeStr | MustBeBool | MustBeSequenceOrAll | MustBeFormat(accepted: set<string>)

  /** A validator function: its `__name__`, what it checks and the exception kind it
      raises when the check fails. */
  datatype Validator = Validator(name: string, check: Check, error: Error)

  predicate Passes(c: Check, value: Value)
  {
    match c
    case MustBeStr => value.VStr?
    case MustBeBool => value.VBool?
    case MustBeSequenceOrAll => value == VStr("__all__") || value.VList? || value.VTuple?
    case MustBeFormat(accepted) => value.VStr? && value.s in accepted
  }

  /** The exception, if any, that the validator registered for `config` raises on
      `value`. A None value is never validated. */
  function ValidateConfig(validators: map<string, Validator>, config: string, value: Value): (r: Option<Error>)
    ensures r.Some? <==> value != VNone && config in validators && !Passes(validators[config].check, value)
    ensures r.Some? ==> r.value == validators[config].error
  {
    if value != VNone && config in validators && !Passes(validators[config].check, value)
    then Some(validators[config].error)
    else None
  }

  /** `getter(cls, config, default)` on a class whose `UTZMeta` is `meta`. */
  function Lookup(validators: map<string, Validator>, meta: Meta, config: string, default: Value): (r: Result<Value>)
    ensures meta.NoMeta? ==> r == Err(AttributeError)
    ensures r.Ok? ==> r.value == MetaGet(meta, config, default)
    ensures !meta.NoMeta? ==> (r.Err? <==> ValidateConfig(validators, config, MetaGet(meta, config, default)).Some?)
  {
    if meta.NoMeta? then Err(AttributeError)
    else
      var value := MetaGet(meta, config, default);
      match ValidateConfig(validators, config, value)
      case Some(e) => Err(e)
      case None => Ok(value)
  }

  /** The names the setter admits: the allowed ones, and `_decorated` always. */
  predicate Admits(allowed: seq<string>, config: string)
  {
    config == "_decorated" || config in allowed
  }

  /** `setter(cls, config, value)` on a class whose `UTZMeta` is `meta`: the new
      `UTZMeta`, or the exception raised. `rejectWith` is the kind raised for a name
      that is not admitted. */
  function Store(allowed: seq<string>, validators: map<string, Validator>, rejectWith: Error,
                 meta: Meta, config: string, value: Value): (r: Result<Meta>)
    ensures !Admits(allowed, config) ==> r == Err(rejectWith)
    ensures r.Ok? <==> Admits(allowed, config) && ValidateConfig(validators, config, value).None? && meta.MetaClass?
    ensures r.Ok? ==> r.value.MetaClass? && r.value.configs.Keys == meta.configs.Keys + {config}
    ensures r.Ok? ==> r.value.configs[config] == value
    ensures r.Ok? ==> forall k :: k in meta.configs && k != config ==> r.value.configs[k] == meta.configs[k]
    ensures Admits(allowed, config) && r.Err? ==> r.error in {AttributeError} + (if config in validators then {validators[config].error} else {})
  {
    if !Admits(allowed, config) then Err(rejectWith)
    else match ValidateConfig(validators, config, value)
      case Some(e) => Err(e)
      case None =>
        if meta.MetaClass? then Ok(MetaClass(meta.configs[config := value])) else Err(AttributeError)
  }

  /** After a successful set, the getter returns the value just written, whatever
      the default. */
  lemma GetAfterSet(allowed: seq<string>, validators: map<string, Validator>, rejectWith: Error,
                    meta: Meta, config: string, value: Value, default: Value)
    requires Store(allowed, validators, rejectWith, meta, config, value).Ok?
    ensures Lookup(validators, Store(allowed, validators, rejectWith, meta, config, value).value, config, default) == Ok(value)
  {
  }

  /** A successful set leaves every other configuration as the getter saw it. */
  lemma SetLeavesOtherConfigs(allowed: seq<string>, validators: map<string, Validator>, rejectWith: Error,
                              meta: Meta, config: string, value: Value, other: string, default: Value)
    requires Store(allowed, validators, rejectWith, meta, config, value).Ok?
    requires other != config
    ensures Lookup(validators, Store(allowed, validators, rejectWith, meta, config, value).value, other, default)
            == Lookup(validators, meta, other, default)
  {
  }

  /** An unset configuration read with no default is None and is never validated. */
  lemma UnsetIsNotValidated(validators: map<string, Validator>, configs: map<string, Value>, config: string)
    requires config !in configs
    ensures Lookup(validators, MetaClass(configs), config, VNone) == Ok(VNone)
  {
  }

  /** The key under which the registrar files a validator: the explicit name when
      given, else the function's name without its "validate_" prefix. */
  function RegistrationKey(v: Validator, config: Option<string>): (r: string)
    ensures config.Some? ==> r == config.value
    ensures config.None? && |v.name| >= 9 && v.name[..9] == "validate_" ==> "validate_" + r == v.name
    ensures config.None? && !(|v.name| >= 9 && v.name[..9] == "validate_") ==> r == v.name
  {
    if config.Some? then config.value else Strings.RemovePrefix(v.name, "validate_")
  }

  /** A registry of validators: the dict a registrar writes into and the getter and
      setter read from. */
  class Registry {
    var validators: map<string, Validator>

    constructor ()
      ensures validators == map[]
    {
      validators := map[];
    }

    /** `register_validator(validator, config=config)`: files the validator under its
        key, replacing any validator already there. */
    method Register(v: Validator, config: Option<string>)
      modifies this
      ensures validators == old(validators)[RegistrationKey(v, config) := v]
    {
      var key := if config.Some? then config.value else Strings.RemovePrefix(v.name, "validate_");
      validators := validators[key := v];
    }
  }

  /** The getter `make_utz_config_getter(validators)` returns. */
  class Getter {
    const registry: Registry

    /** `validators = validators or {}`: an absent or EMPTY registry is replaced by a
        fresh one, so validators registered into it later are never seen. */
    constructor (validators: Registry?)
      ensures validators != null && validators.validators != map[] ==> registry == validators
      ensures validators == null || validators.validators == map[] ==> fresh(registry) && registry.validators == map[]
    {
      if validators != null && validators.validators != map[] {
        registry := validators;
      } else {
        registry := new Registry();
      }
    }

    /** The getter with the registry shared whatever its contents. */
    constructor Shared(validators: Registry)
      ensures registry == validators
    {
      registry := validators;
    }

    method Get(meta: Meta, config: string, default: Value) returns (r: Result<Value>)
      ensures r == Lookup(registry.validators, meta, config, default)
    {
      if meta.NoMeta? {
        return Err(AttributeError);
      }
      var value := default;
      if meta.MetaClass? && config in meta.configs {
        value := meta.configs[config];
      }
      if value != VNone && config in registry.validators {
        var v := registry.validators[config];
        if !Passes(v.check, value) {
          return Err(v.error);
        }
      }
      return Ok(value);
    }
  }

  /** The setter `make_utz_config_setter(allowed_configs, validators)` returns. */
  class Setter {
    const allowed: seq<string>
    const registry: Registry

    /** `validators = validators or {}`, as for the getter. */
    constructor (allowed: seq<string>, validators: Registry?)
      ensures this.allowed == allowed
      ensures validators != null && validators.validators != map[] ==> registry == validators
      ensures validators == null || validators.validators == map[] ==> fresh(registry) && registry.validators == map[]
    {
      this.allowed := allowed;
      if validators != null && validators.validators != map[] {
        registry := validators;
      } else {
        registry := new Registry();
      }
    }

    /** The setter with the registry shared whatever its contents. */
    constructor Shared(allowed: seq<string>, validators: Registry)
      ensures this.allowed == allowed && registry == validators
    {
      this.allowed := allowed;
      registry := validators;
    }

    method Set(meta: Meta, config: string, value: Value) returns (r: Result<Meta>)
      ensures r == Store(allowed, registry.validators, ConfigurationError, meta, config, value)
    {
      if config != "_decorated" && config !in allowed {
        return Err(ConfigurationError);
      }
      if value != VNone && config in registry.validators {
        var v := registry.validators[config];
        if !Passes(v.check, value) {
          return Err(v.error);
        }
      }
      if !meta.MetaClass? {
        return Err(AttributeError);
      }
      return Ok(MetaClass(meta.configs[config := value]));
    }
  }

  /** A getter made from a registry that is still empty, as the module-level
      registries are when their getters are made, reads an ill-typed value without
      complaint even after the matching validator has been registered. */
  method LateRegistrationIsIgnored() returns (r: Result<Value>)
    ensures r == Ok(VInt(5))
  {
    var registry := new Registry();
    var get := new Getter(registry);
    registry.Register(Validator("validate_attribute_suffix", MustBeStr, ConfigurationError), None);
    r := get.Get(MetaClass(map["attribute_suffix" := VInt(5)]), "attribute_suffix", VNone);
  }

  /** With the registry shared, the validator registered later does run. */
  method LateRegistrationApplies() returns (r: Result<Value>)
    ensures r == Err(ConfigurationError)
  {
    var registry := new Registry();
    var get := new Getter.Shared(registry);
    registry.Register(Validator("validate_attribute_suffix", MustBeStr, ConfigurationError), None);
    r := get.Get(MetaClass(map["attribute_suffix" := VInt(5)]), "attribute_suffix", VNone);
  }
}
